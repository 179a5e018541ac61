/**
 * The Auth0 provider: OIDC authorization-code login. `Login` stores a random
 * CSRF state in the session and sends the browser to the identity provider;
 * `Callback` checks that state, exchanges the code, verifies the ID token and
 * stores the identity in the session; `Logout` sends the browser to the
 * provider's logout page.
 */
module Auth0 {
  import opened Wrappers
  import opened Base64
  import Strings
  import opened Sessions
  import opened Http

  const LoginError := "Error logging in"
  const LogoutError := "Error Logging out"

  /** The `authenticator.config` section of the configuration file. */
  datatype Config = Config(issuer: string, clientId: string, clientSecret: string,
                           redirectUrl: string, scopes: string, logoutUri: string)

  /** `new(auth0.Config)`: every field empty. */
  const ZeroConfig := Config("", "", "", "", "", "")

  /** The provider's endpoints found by OIDC discovery. */
  datatype Endpoint = Endpoint(authUrl: string, tokenUrl: string)

  /** `oauth2.Config`. */
  datatype OAuthConfig = OAuthConfig(clientId: string, clientSecret: string, redirectUrl: string,
                                     endpoint: Endpoint, scopes: seq<string>)

  /** A token response: the access token and the other fields of the response body. */
  datatype Token = Token(accessToken: string, extra: map<string, Json>)

  /** A verified ID token; `payload` is its claims section, already decoded as JSON. */
  datatype IdToken = IdToken(payload: Json)

  /**
   * The identity provider's network and signature calls, which this model
   * does not compute: `exchange(code)` is the OAuth2 code exchange, and
   * `verify(raw, audience)` checks an ID token's signature, issuer, expiry and
   * audience (`None` for an error).
   */
  datatype IdentityProvider = IdentityProvider(exchange: string -> Option<Token>,
                                               verify: (string, string) -> Option<IdToken>)

  /** What `oidc.NewProvider` returns when discovery succeeds. */
  datatype Discovery = Discovery(endpoint: Endpoint, provider: IdentityProvider)

  /** A call the callback makes to the identity provider. */
  datatype Call = Exchange(code: string) | Verify(rawIdToken: string, audience: string)

  datatype OpenError = DiscoveryFailed

  /** `Config.Open`: the provider assembled from the configuration and the discovery result. */
  function Open(c: Config, discovery: Option<Discovery>): (r: Result<Auth0, OpenError>)
    ensures r.Ok? <==> discovery.Some?
    ensures r.Ok? ==> r.value.Opened() && r.value.config == c
    ensures r.Ok? ==> r.value.oauth.endpoint == discovery.value.endpoint && r.value.idp == discovery.value.provider
    ensures r.Ok? ==> Strings.Join(r.value.oauth.scopes) == c.scopes
    ensures r.Ok? ==> |r.value.oauth.scopes| == Strings.Spaces(c.scopes) + 1
  {
    match discovery
    case None => Err(DiscoveryFailed)
    case Some(d) =>
      Strings.JoinSplit(c.scopes);
      Strings.SplitCount(c.scopes);
      Ok(Auth0(OAuthConfig(c.clientId, c.clientSecret, c.redirectUrl, d.endpoint, Strings.Split(c.scopes)),
               c, d.provider))
  }

  /** The query of the authorization request, as `oauth2.Config.AuthCodeURL` builds it. */
  function AuthCodeParams(o: OAuthConfig, state: string): (v: Values)
    ensures {"response_type", "client_id"} <= v.Keys <= {"response_type", "client_id", "redirect_uri", "scope", "state"}
    ensures All(v, "response_type") == ["code"] && All(v, "client_id") == [o.clientId]
    ensures All(v, "redirect_uri") == if o.redirectUrl != "" then [o.redirectUrl] else []
    ensures All(v, "scope") == if |o.scopes| > 0 then [Strings.Join(o.scopes)] else []
    ensures All(v, "state") == if state != "" then [state] else []
  {
    var v := map["response_type" := ["code"], "client_id" := [o.clientId]];
    var v := if o.redirectUrl != "" then Put(v, "redirect_uri", o.redirectUrl) else v;
    var v := if |o.scopes| > 0 then Put(v, "scope", Strings.Join(o.scopes)) else v;
    if state != "" then Put(v, "state", state) else v
  }

  /** `oauth2.Config.AuthCodeURL(state)`: the authorization endpoint with the request's query appended. */
  function AuthCodeURL(o: OAuthConfig, state: string, codec: UrlCodec): (r: string)
    ensures |r| > |o.endpoint.authUrl| && r[..|o.endpoint.authUrl|] == o.endpoint.authUrl
    ensures r[|o.endpoint.authUrl|] == if '?' in o.endpoint.authUrl then '&' else '?'
    ensures r[|o.endpoint.authUrl| + 1..] == codec.encode(AuthCodeParams(o, state))
  {
    o.endpoint.authUrl + (if '?' in o.endpoint.authUrl then "&" else "?") + codec.encode(AuthCodeParams(o, state))
  }

  /** The `id_token` field of a token response, when it is a string. */
  function RawIdToken(t: Token): (r: Option<string>)
    ensures r.Some? <==> "id_token" in t.extra && t.extra["id_token"].Text?
    ensures r.Some? ==> t.extra["id_token"] == Text(r.value)
  {
    if "id_token" in t.extra && t.extra["id_token"].Text? then Some(t.extra["id_token"].s) else None
  }

  /**
   * `idToken.Claims(&profile)`: the payload decoded into a map. A JSON object
   * gives its fields; `null` leaves the map nil, which is stored as an empty
   * claims map; anything else is a decoding error.
   */
  function DecodeClaims(t: IdToken): (r: Option<map<string, Json>>)
    ensures r.Some? <==> t.payload.Object? || t.payload.Null?
    ensures t.payload.Object? ==> r == Some(t.payload.fields)
    ensures t.payload.Null? ==> r == Some(map[])
  {
    match t.payload
    case Object(fields) => Some(fields)
    case Null => Some(map[])
    case _ => None
  }

  /** The session state sent with the authorization request matches the callback's `state`, or there is none. */
  predicate StateAccepted(stored: Store, req: Request)
  {
    Lookup(stored, "state").None? || Lookup(stored, "state") == Some(Str(First(req.query, "state")))
  }

  /** Every call the identity provider answers, each one successfully: the callback then writes the session. */
  predicate CallbackVerifies(a: Auth0, stored: Store, req: Request)
  {
    var code := First(req.query, "code");
    && StateAccepted(stored, req)
    && code != ""
    && a.idp.exchange(code).Some?
    && RawIdToken(a.idp.exchange(code).value).Some?
    && a.idp.verify(RawIdToken(a.idp.exchange(code).value).value, a.oauth.clientId).Some?
    && DecodeClaims(a.idp.verify(RawIdToken(a.idp.exchange(code).value).value, a.oauth.clientId).value).Some?
  }

  /** What a handler did: its response, the provider calls it made, the session keys it set, and whether the session was saved. */
  datatype Run = Run(outcome: Outcome, calls: seq<Call>, writes: Store, saved: bool)

  /** `Auth0`: the provider `Open` returns. */
  datatype Auth0 = Auth0(oauth: OAuthConfig, config: Config, idp: IdentityProvider) {

    /** What `Open` guarantees of the provider it builds. */
    predicate Opened()
    {
      && oauth.clientId == config.clientId
      && oauth.clientSecret == config.clientSecret
      && oauth.redirectUrl == config.redirectUrl
      && oauth.scopes == Strings.Split(config.scopes)
    }

    /** `Login`, given the outcome of `rand.Read` (32 bytes or an error) and of `sess.Save`. */
    function LoginSpec(entropy: Option<seq<byte>>, saveOk: bool, codec: UrlCodec): (r: Run)
      requires entropy.Some? ==> |entropy.value| == 32
      ensures r.calls == []
      ensures entropy.None? ==> r.writes == map[] && !r.saved
      ensures entropy.Some? ==> r.writes == map["state" := Str(Encode(entropy.value))]
      ensures entropy.Some? ==> |Encode(entropy.value)| == 44
      ensures r.saved <==> entropy.Some? && saveOk
      ensures r.saved ==> r.outcome == Redirect(StatusTemporaryRedirect, AuthCodeURL(oauth, Encode(entropy.value), codec))
      ensures !r.saved ==> r.outcome == Render(StatusInternalServerError, Message(LoginError))
    {
      match entropy
      case None => Run(Render(StatusInternalServerError, Message(LoginError)), [], map[], false)
      case Some(b) =>
        StateLength(b);
        var state := Encode(b);
        if saveOk then Run(Redirect(StatusTemporaryRedirect, AuthCodeURL(oauth, state, codec)), [], map["state" := Str(state)], true)
        else Run(Render(StatusInternalServerError, Message(LoginError)), [], map["state" := Str(state)], false)
    }

    method Login(sess: Session, entropy: Option<seq<byte>>, saveOk: bool, codec: UrlCodec) returns (out: Outcome)
      requires entropy.Some? ==> |entropy.value| == 32
      modifies sess
      ensures var r := LoginSpec(entropy, saveOk, codec);
              && out == r.outcome
              && sess.pending == old(sess.pending) + r.writes
              && sess.persisted == if r.saved then sess.pending else old(sess.persisted)
    {
      if entropy.None? {
        out := Render(StatusInternalServerError, Message(LoginError));
        return;
      }
      var state := Encode(entropy.value);
      sess.Set("state", Str(state));
      var failed := sess.Save(saveOk);
      if failed {
        out := Render(StatusInternalServerError, Message(LoginError));
        return;
      }
      out := Redirect(StatusTemporaryRedirect, AuthCodeURL(oauth, state, codec));
    }

    /** `Callback` on a session holding `stored`, given the outcome of `sess.Save`. */
    function CallbackSpec(stored: Store, req: Request, saveOk: bool): (r: Run)
      // a mismatched state stops the flow before any provider call and touches nothing
      ensures !StateAccepted(stored, req) ==>
                r == Run(Render(StatusInternalServerError, Message(LoginError)), [], map[], false)
      // so does an empty code
      ensures First(req.query, "code") == "" ==>
                r == Run(Render(StatusInternalServerError, Message(LoginError)), [], map[], false)
      // the exchange is attempted exactly when the state check passes and a code is given
      ensures |r.calls| > 0 <==> StateAccepted(stored, req) && First(req.query, "code") != ""
      ensures |r.calls| > 0 ==> r.calls[0] == Exchange(First(req.query, "code")) && |r.calls| <= 2
      ensures |r.calls| == 2 ==> r.calls[1].Verify? && r.calls[1].audience == oauth.clientId
      // the token is verified only after a successful exchange whose response carries a string `id_token`, and it is that token
      ensures |r.calls| == 2 <==>
                && |r.calls| > 0
                && idp.exchange(First(req.query, "code")).Some?
                && RawIdToken(idp.exchange(First(req.query, "code")).value).Some?
      ensures |r.calls| == 2 ==>
                r.calls[1] == Verify(RawIdToken(idp.exchange(First(req.query, "code")).value).value, oauth.clientId)
      // a failure after the exchange is attempted is 401
      ensures |r.calls| > 0 && !r.saved ==> r.outcome == Render(StatusUnauthorized, Message(LoginError))
      // keys are set only when every check passes, and then exactly these three
      ensures r.writes != map[] <==> CallbackVerifies(this, stored, req)
      ensures r.writes != map[] ==>
                && |r.calls| == 2
                && r.writes.Keys == {"id_token", "access_token", "profile"}
                && r.writes["id_token"] == Str(r.calls[1].rawIdToken)
                && r.writes["profile"].Claims?
      ensures r.writes != map[] ==>
                var token := idp.exchange(First(req.query, "code")).value;
                && RawIdToken(token) == Some(r.calls[1].rawIdToken)
                && r.writes["access_token"] == Str(token.accessToken)
                && DecodeClaims(idp.verify(r.calls[1].rawIdToken, oauth.clientId).value) == Some(r.writes["profile"].claims)
      // the session is saved only after every check passed, and only then is the browser sent home
      ensures r.saved <==> CallbackVerifies(this, stored, req) && saveOk
      ensures r.saved ==> r.outcome == Redirect(StatusSeeOther, "/")
      ensures !r.saved ==> r.outcome.Render? && r.outcome.view == Message(LoginError)
    {
      if !StateAccepted(stored, req) then
        Run(Render(StatusInternalServerError, Message(LoginError)), [], map[], false)
      else
        var code := First(req.query, "code");
        if code == "" then
          Run(Render(StatusInternalServerError, Message(LoginError)), [], map[], false)
        else
          var exchanged := [Exchange(code)];
          match idp.exchange(code)
          case None => Run(Render(StatusUnauthorized, Message(LoginError)), exchanged, map[], false)
          case Some(token) =>
            match RawIdToken(token)
            case None => Run(Render(StatusUnauthorized, Message(LoginError)), exchanged, map[], false)
            case Some(raw) =>
              var calls := exchanged + [Verify(raw, oauth.clientId)];
              match idp.verify(raw, oauth.clientId)
              case None => Run(Render(StatusUnauthorized, Message(LoginError)), calls, map[], false)
              case Some(idToken) =>
                match DecodeClaims(idToken)
                case None => Run(Render(StatusUnauthorized, Message(LoginError)), calls, map[], false)
                case Some(profile) =>
                  var writes := map["id_token" := Str(raw), "access_token" := Str(token.accessToken),
                                    "profile" := Claims(profile)];
                  assert "id_token" in writes;
                  if saveOk then Run(Redirect(StatusSeeOther, "/"), calls, writes, true)
                  else Run(Render(StatusUnauthorized, Message(LoginError)), calls, writes, false)
    }

    method Callback(sess: Session, req: Request, saveOk: bool) returns (out: Outcome, calls: seq<Call>)
      modifies sess
      ensures var r := CallbackSpec(old(sess.pending), req, saveOk);
              && out == r.outcome
              && calls == r.calls
              && sess.pending == old(sess.pending) + r.writes
              && sess.persisted == if r.saved then sess.pending else old(sess.persisted)
    {
      calls := [];
      var loaded := sess.pending;  // the session as the request found it
      var state := sess.Get("state");
      if state.Some? {
        if Str(First(req.query, "state")) != state.value {
          out := Render(StatusInternalServerError, Message(LoginError));
          return;
        }
      }

      var code := First(req.query, "code");
      if code == "" {
        out := Render(StatusInternalServerError, Message(LoginError));
        return;
      }

      calls := calls + [Exchange(code)];
      var token := idp.exchange(code);
      if token.None? {
        out := Render(StatusUnauthorized, Message(LoginError));
        return;
      }

      var raw := RawIdToken(token.value);
      if raw.None? {
        out := Render(StatusUnauthorized, Message(LoginError));
        return;
      }

      calls := calls + [Verify(raw.value, oauth.clientId)];
      var idToken := idp.verify(raw.value, oauth.clientId);
      if idToken.None? {
        out := Render(StatusUnauthorized, Message(LoginError));
        return;
      }

      var profile := DecodeClaims(idToken.value);
      if profile.None? {
        out := Render(StatusUnauthorized, Message(LoginError));
        return;
      }

      sess.Set("id_token", Str(raw.value));
      sess.Set("access_token", Str(token.value.accessToken));
      sess.Set("profile", Claims(profile.value));
      assert sess.pending == loaded + map["id_token" := Str(raw.value), "access_token" := Str(token.value.accessToken),
                                          "profile" := Claims(profile.value)];
      var failed := sess.Save(saveOk);
      if failed {
        out := Render(StatusUnauthorized, Message(LoginError));
        return;
      }
      out := Redirect(StatusSeeOther, "/");
    }

    /** The `returnTo` address: the request's own scheme and host. */
    function ReturnTo(req: Request): (r: string)
      ensures req.tls <==> |r| >= 8 && r[..8] == "https://"
      ensures !req.tls ==> |r| >= 7 && r[..7] == "http://"
      ensures |r| == |req.host| + (if req.tls then 8 else 7) && r[|r| - |req.host|..] == req.host
    {
      var scheme := if req.tls then "https" else "http";
      var r := scheme + "://" + req.host;
      assert r[4] == if req.tls then 's' else ':';
      r
    }

    /** `Logout`, given the `net/url` library. */
    function LogoutSpec(req: Request, codec: UrlCodec): (r: Outcome)
      ensures r.Redirect? <==> codec.parse(ReturnTo(req)).Some? && codec.parse(config.issuer + config.logoutUri).Some?
      ensures !r.Redirect? ==> r == Render(StatusInternalServerError, Message(LogoutError))
      ensures r.Redirect? ==>
                var target := codec.parse(config.issuer + config.logoutUri).value;
                var returnTo := codec.render(codec.parse(ReturnTo(req)).value);
                r == Redirect(StatusTemporaryRedirect,
                              codec.render(target.(query := LogoutQuery(target.query, returnTo, oauth.clientId))))
    {
      match codec.parse(ReturnTo(req))
      case None => Render(StatusInternalServerError, Message(LogoutError))
      case Some(returnTo) =>
        match codec.parse(config.issuer + config.logoutUri)
        case None => Render(StatusInternalServerError, Message(LogoutError))
        case Some(target) =>
          Redirect(StatusTemporaryRedirect,
                   codec.render(target.(query := LogoutQuery(target.query, codec.render(returnTo), oauth.clientId))))
    }

    /** `Logout`: reads the request only; the session is neither read nor written. */
    method Logout(req: Request, codec: UrlCodec) returns (out: Outcome)
      ensures out == LogoutSpec(req, codec)
    {
      var scheme: string;
      if !req.tls {
        scheme := "http";
      } else {
        scheme := "https";
      }
      var returnTo := codec.parse(scheme + "://" + req.host);
      if returnTo.None? {
        out := Render(StatusInternalServerError, Message(LogoutError));
        return;
      }
      var logoutUrl := codec.parse(config.issuer + config.logoutUri);
      if logoutUrl.None? {
        out := Render(StatusInternalServerError, Message(LogoutError));
        return;
      }
      var q := logoutUrl.value.query;
      q := Add(q, "returnTo", codec.render(returnTo.value));
      q := Add(q, "client_id", oauth.clientId);
      var target := logoutUrl.value.(query := q);
      out := Redirect(StatusTemporaryRedirect, codec.render(target));
    }
  }

  /** The logout URL's query: its own values, then `returnTo` and `client_id`. */
  function LogoutQuery(q: Values, returnTo: string, clientId: string): (r: Values)
    ensures r.Keys == q.Keys + {"returnTo", "client_id"}
    ensures All(r, "returnTo") == All(q, "returnTo") + [returnTo]
    ensures All(r, "client_id") == All(q, "client_id") + [clientId]
    ensures forall k :: k != "returnTo" && k != "client_id" ==> All(r, k) == All(q, k)
  {
    Add(Add(q, "returnTo", returnTo), "client_id", clientId)
  }
}
