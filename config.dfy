/**
 * Decoding of the configuration's `logger` and `authenticator` sections.
 * Each `UnmarshalJSON` assigns its receiver only when decoding succeeds.
 */
module Config {
  import opened Wrappers
  import Auth0

  /** zap's levels, least severe first. */
  datatype Level = Debug | Info | Warn | Error | DPanic | Panic | Fatal

  /** zap's name for each level. */
  function LevelName(l: Level): string
  {
    match l
    case Debug => "debug"
    case Info => "info"
    case Warn => "warn"
    case Error => "error"
    case DPanic => "dpanic"
    case Panic => "panic"
    case Fatal => "fatal"
  }

  datatype ConfigError =
    | BadJson(detail: string)               // the logger section is not the JSON object expected
    | BadAuthenticator(detail: string)      // "parse authenticator: %v"
    | UnknownLevel(name: string)            // "not matching log level found for %s"
    | UnknownConnectorType(typ: string)     // "unknown connector type %q"
    | BadConnectorConfig(detail: string)    // "parse connector config: %v"

  /** The level switch of `Logger.UnmarshalJSON`. */
  function ParseLevel(name: string): (r: Result<Level, ConfigError>)
    ensures r.Ok? <==> name in {"debug", "info", "warn", "panic", "fatal"}
    ensures r.Ok? ==> LevelName(r.value) == name
    ensures r.Err? ==> r.error == UnknownLevel(name)
  {
    match name
    case "debug" => Ok(Debug)
    case "info" => Ok(Info)
    case "warn" => Ok(Warn)
    case "panic" => Ok(Panic)
    case "fatal" => Ok(Fatal)
    case _ => Err(UnknownLevel(name))
  }

  /** Every level but `error` and `dpanic` can be chosen by its name; those two cannot be chosen at all. */
  lemma ParseLevelName(l: Level)
    ensures l !in {Error, DPanic} ==> ParseLevel(LevelName(l)) == Ok(l)
    ensures l in {Error, DPanic} ==> forall name :: ParseLevel(name) != Ok(l)
  {
  }

  /** The `logger` object as JSON decoding reads it. */
  datatype LoggerFields = LoggerFields(level: string, encoding: string)

  /** `Logger.UnmarshalJSON` without its receiver; `decoded` is the outcome of `json.Unmarshal`. */
  function DecodeLogger(decoded: Result<LoggerFields, string>): (r: Result<(Level, string), ConfigError>)
    ensures decoded.Err? ==> r == Err(BadJson(decoded.error))
    ensures decoded.Ok? ==> (r.Ok? <==> ParseLevel(decoded.value.level).Ok?)
    ensures r.Ok? ==> LevelName(r.value.0) == decoded.value.level && r.value.1 == decoded.value.encoding
    ensures decoded.Ok? && r.Err? ==> r.error == UnknownLevel(decoded.value.level)
  {
    match decoded
    case Err(e) => Err(BadJson(e))
    case Ok(fields) =>
      match ParseLevel(fields.level)
      case Err(e) => Err(e)
      case Ok(level) => Ok((level, fields.encoding))
  }

  /** `config.Logger`. */
  class Logger {
    var level: Level
    var encoding: string

    /** The zero value: zap's zero level is `InfoLevel`. */
    constructor ()
      ensures level == Info && encoding == ""
    {
      level := Info;
      encoding := "";
    }

    method UnmarshalJSON(decoded: Result<LoggerFields, string>) returns (err: Option<ConfigError>)
      modifies this
      ensures var r := DecodeLogger(decoded);
              && (err.None? <==> r.Ok?)
              && (r.Ok? ==> level == r.value.0 && encoding == r.value.1)
              && (r.Err? ==> err == Some(r.error) && level == old(level) && encoding == old(encoding))
    {
      if decoded.Err? {
        return Some(BadJson(decoded.error));
      }
      var conf := decoded.value;
      var l: Level;
      match conf.level {
        case "debug" => l := Debug;
        case "info" => l := Info;
        case "warn" => l := Warn;
        case "panic" => l := Panic;
        case "fatal" => l := Fatal;
        case _ => return Some(UnknownLevel(conf.level));
      }
      level, encoding := l, conf.encoding;
      err := None;
    }
  }

  /** The implementations of `AuthenticationConfig`. */
  datatype Connector = Auth0Connector(config: Auth0.Config)

  /** `AuthenticatorsConfig`: each connector type to the fresh, zero-valued configuration it starts from. */
  const AuthenticatorsConfig: map<string, Connector> := map["auth0" := Auth0Connector(Auth0.ZeroConfig)]

  /** The registry knows exactly one type, `auth0`, and it starts from an empty `auth0.Config`. */
  lemma RegistryIsAuth0Only(typ: string)
    ensures typ in AuthenticatorsConfig <==> typ == "auth0"
    ensures typ in AuthenticatorsConfig ==> AuthenticatorsConfig[typ] == Auth0Connector(Auth0.ZeroConfig)
  {
  }

  /** The `authenticator` object as JSON decoding reads it; `config` is the raw text of its `config` field, empty when absent. */
  datatype AuthenticatorFields = AuthenticatorFields(typ: string, config: string)

  /**
   * `Authenticator.UnmarshalJSON` without its receiver. `expandEnv` is
   * `os.ExpandEnv`, and `parse(c, text)` is `json.Unmarshal(text, c)` into
   * the connector configuration `c`; this model computes neither.
   */
  function DecodeAuthenticator(decoded: Result<AuthenticatorFields, string>, expandEnv: string -> string,
                               parse: (Connector, string) -> Result<Connector, string>): (r: Result<(string, Connector), ConfigError>)
    ensures decoded.Err? ==> r == Err(BadAuthenticator(decoded.error))
    ensures decoded.Ok? && decoded.value.typ !in AuthenticatorsConfig ==> r == Err(UnknownConnectorType(decoded.value.typ))
    ensures r.Ok? ==> decoded.Ok? && r.value.0 == decoded.value.typ && r.value.0 in AuthenticatorsConfig
    ensures decoded.Ok? && decoded.value.typ in AuthenticatorsConfig && decoded.value.config == "" ==>
              r == Ok((decoded.value.typ, AuthenticatorsConfig[decoded.value.typ]))
    ensures decoded.Ok? && decoded.value.typ in AuthenticatorsConfig && decoded.value.config != "" ==>
              var parsed := parse(AuthenticatorsConfig[decoded.value.typ], expandEnv(decoded.value.config));
              r == match parsed
                   case Ok(c) => Ok((decoded.value.typ, c))
                   case Err(e) => Err(BadConnectorConfig(e))
  {
    match decoded
    case Err(e) => Err(BadAuthenticator(e))
    case Ok(auth) =>
      if auth.typ !in AuthenticatorsConfig then Err(UnknownConnectorType(auth.typ))
      else
        var connConfig := AuthenticatorsConfig[auth.typ];
        if |auth.config| == 0 then Ok((auth.typ, connConfig))
        else
          match parse(connConfig, expandEnv(auth.config))
          case Err(e) => Err(BadConnectorConfig(e))
          case Ok(c) => Ok((auth.typ, c))
  }

  /** `config.Authenticator`; `config` is nil (`None`) until decoding succeeds. */
  class Authenticator {
    var typ: string
    var config: Option<Connector>

    constructor ()
      ensures typ == "" && config == None
    {
      typ := "";
      config := None;
    }

    method UnmarshalJSON(decoded: Result<AuthenticatorFields, string>, expandEnv: string -> string,
                         parse: (Connector, string) -> Result<Connector, string>) returns (err: Option<ConfigError>)
      modifies this
      ensures var r := DecodeAuthenticator(decoded, expandEnv, parse);
              && (err.None? <==> r.Ok?)
              && (r.Ok? ==> typ == r.value.0 && config == Some(r.value.1))
              && (r.Err? ==> err == Some(r.error) && typ == old(typ) && config == old(config))
    {
      if decoded.Err? {
        return Some(BadAuthenticator(decoded.error));
      }
      var auth := decoded.value;
      if auth.typ !in AuthenticatorsConfig {
        return Some(UnknownConnectorType(auth.typ));
      }
      var connConfig := AuthenticatorsConfig[auth.typ];
      if |auth.config| != 0 {
        var data := expandEnv(auth.config);
        var parsed := parse(connConfig, data);
        if parsed.Err? {
          return Some(BadConnectorConfig(parsed.error));
        }
        connConfig := parsed.value;
      }
      typ, config := auth.typ, Some(connConfig);
      err := None;
    }
  }
}
