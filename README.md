# mob: the OIDC login flow, modelled in Dafny

`mob` is a small web application that gates one page behind OpenID Connect
login through Auth0 and lets a logged-in user submit a letter, stored on
disk as a draft or a final file. This project models the parts with real
decisions in them and proves their security and correctness properties:

- **The Auth0 provider** (`auth0.dfy`). `Open` builds the OAuth2 client
  from the configuration. `Login` stores a fresh CSRF `state` (32 random
  bytes, base64-encoded) in the session and redirects to the authorization
  endpoint. `Callback` is a fail-fast chain: state check, non-empty code,
  code exchange, `id_token` extraction, ID-token verification with the
  client id as audience, and claims decoding. Only then does it set
  `id_token`, `access_token` and `profile`, save the session and redirect
  to `/`. `Logout` redirects to the provider's logout URL with `returnTo`
  and `client_id` added. Each handler appears twice. A pure function
  (`LoginSpec`, `CallbackSpec`, `LogoutSpec`) states the properties in
  its `ensures`. An imperative method (`Login`, `Callback`, `Logout`) does
  the work step by step and is proved equal to that function. `Login` and
  `Callback` work on a `Session` object; `Logout` reads only the request.
- **The session** (`sessions.dfy`). A class with two maps. `pending` is
  what `Get` sees and `Set` changes. `persisted` is what the cookie holds,
  and only a successful `Save` updates it. A failed save therefore leaves
  the in-memory map changed but the cookie untouched.
- **Configuration decoding** (`config.dfy`). These are the log-level switch
  and the authenticator registry lookup. Each `UnmarshalJSON` is a class
  method that assigns its receiver only on success.
- **Server routes** (`server.dfy`). The `/` gate keys on whether `profile`
  is present. `/submit` chooses between draft and final and builds the
  file name `letters/<version>/mob_<unix>.txt`.
- **Supporting definitions**: RFC 4648 section 4 base64 with a decoder
  (`base64.dfy`), Go's `%d` with a parser (`decimal.dfy`) and Go's
  `strings.Split`/`strings.Join` on one space (`strings.dfy`). Each has
  its round trip proved. `flow.dfy` holds lemmas over whole
  multi-request flows, where one request sees what earlier ones persisted.

Calls into code this model does not compute are passed in as values:

- the identity provider's code exchange and token verification (`IdentityProvider`);
- the discovery result (`Discovery`);
- the random bytes (`entropy`, or `None` when `rand.Read` fails);
- the outcome of a session save or a file write (`saveOk`, `writeOk`);
- `url.Parse`, `URL.String` and `Values.Encode` (`UrlCodec`);
- `json.Unmarshal` results (`decoded`, `parse`) and `os.ExpandEnv` (`expandEnv`);
- the current time (`unix`).

`Callback` also returns the list of provider calls it made. A property
such as "no exchange was attempted" is stated over that list.

Behaviour of the code worth noting:

- If a callback reaches the session save and the save fails, the three
  keys are already set in the in-memory session. Only the cookie is left
  unchanged. A failed login save is the same for `state`.
- A successful callback leaves `state` in the session. Nothing consumes it.
- The logout error message is `Error Logging out`, capitalised as in the code.
- The level name `error` is rejected, so zap's `Error` and `DPanic` levels
  cannot be configured (`Config.ParseLevelName`).

## Model

| member | source | states |
|---|---|---|
| `Auth0.Open` | authentication/auth0/auth0.go:28-53 | fails exactly when discovery fails; otherwise copies the client settings, takes the discovered endpoint, and splits the scopes on every single space, so joining them with spaces gives the configured string back and there is one scope more than there are spaces |
| `Strings.JoinSplit` | authentication/auth0/auth0.go:42 | joining the split pieces with `" "` restores any string exactly, including empty and doubled spaces |
| `Strings.SplitJoin` | authentication/auth0/auth0.go:42 | splitting a join of space-free pieces gives the same pieces back |
| `Strings.SplitCount` | authentication/auth0/auth0.go:42 | the split has one piece more than the string has spaces, so empty or doubled spaces give empty pieces |
| `Strings.Split` | authentication/auth0/auth0.go:42 | at least one piece, none containing a space |
| `Auth0.AuthCodeURL` | authentication/auth0/auth0.go:86 | the authorization URL is the discovered authorization endpoint, then `&` if that endpoint already has a `?` and `?` otherwise, then the encoded `AuthCodeParams` |
| `Auth0.AuthCodeParams` | authentication/auth0/auth0.go:86 | the authorization request carries `response_type=code`, the client id, the redirect URL when set, the joined scopes when there are any, and the state when it is non-empty, and no other parameter |
| `Auth0.Auth0.LoginSpec` | authentication/auth0/auth0.go:63-87 | randomness failure gives 500 "Error logging in" and writes nothing; otherwise exactly one key, `state`, is set to the 44-character base64 of the 32 bytes; a failed save gives 500 and persists nothing; only a saved login redirects (307) to the authorization URL built from that same state |
| `Auth0.Auth0.Login` | authentication/auth0/auth0.go:63-87 | sets `state`, then saves the session, with early returns; proved equal to `LoginSpec`, for both the in-memory session and the cookie |
| `Base64.Encode` | authentication/auth0/auth0.go:75 | an encoding has four symbols for every started group of three bytes |
| `Base64.DecodeEncode` | authentication/auth0/auth0.go:75 | decoding the standard base64 encoding gives back the bytes |
| `Base64.EncodeDecode` | authentication/auth0/auth0.go:75 | the decoder accepts only standard encodings: any string it decodes is the encoding of the bytes it yields (the bits left over before `=` padding must be zero), so with `DecodeEncode` the encoding of given bytes is unique |
| `Base64.EncodeInjective` | authentication/auth0/auth0.go:75 | different random bytes give different states |
| `Base64.StateLength` | authentication/auth0/auth0.go:65-75 | 32 bytes encode to 44 characters ending in `=` |
| `Base64.Value` | authentication/auth0/auth0.go:75 | a character decodes to a 6-bit value only if that value's symbol is that character |
| `Auth0.RawIdToken` | authentication/auth0/auth0.go:155-162 | the raw ID token exists exactly when the response's `id_token` field is a string, and is that string |
| `Auth0.DecodeClaims` | authentication/auth0/auth0.go:175-182 | claims decode exactly when the payload is a JSON object (its fields) or `null` (an empty map) |
| `Auth0.Auth0.CallbackSpec` | authentication/auth0/auth0.go:123-197 | a state present and different from the query's gives 500 with no provider call and nothing written; an empty code does the same; the exchange is attempted exactly when the state check passes and a code is given; verification uses the client id as audience; every later failure gives 401; keys are set exactly when every step succeeds, and then exactly `id_token` (the raw token), `access_token` and `profile` (the decoded claims); the session is saved exactly then and with a successful save, and only then the result is a 303 redirect to `/` |
| `Auth0.Auth0.Callback` | authentication/auth0/auth0.go:123-197 | the step-by-step handler with early returns over the session; proved equal to `CallbackSpec` in its response, its provider calls, the in-memory session and the cookie |
| `Auth0.LogoutQuery` | authentication/auth0/auth0.go:115-118 | the logout URL keeps its own query values and gains `returnTo` and `client_id` after any existing values of those keys |
| `Auth0.Auth0.ReturnTo` | authentication/auth0/auth0.go:90-97 | the return address starts with `https://` exactly when the request came over TLS, with `http://` otherwise, and the host follows directly: nothing lies between the scheme's `://` and the host |
| `Auth0.Auth0.LogoutSpec` | authentication/auth0/auth0.go:89-121 | redirects (307) exactly when both the return address and `Issuer+LogoutUri` parse; otherwise renders 500 "Error Logging out"; the target is the parsed logout URL with `LogoutQuery` applied |
| `Auth0.Auth0.Logout` | authentication/auth0/auth0.go:89-121 | the handler that picks the scheme from TLS, parses both URLs and adds the two parameters in place; equal to `LogoutSpec`, and it has no access to the session |
| `Sessions.Session.Get` | authentication/auth0/auth0.go:125 | `sess.Get` sees a value exactly when this request's session holds the key, and that value |
| `Sessions.Lookup` | authentication/auth0/auth0.go:125 | `sess.Get` yields a value exactly when the key is stored, and that value; nil otherwise |
| `Http.First` | authentication/auth0/auth0.go:128 | `ctx.Query` yields the first value of the key, and `""` exactly when there is none or it is empty |
| `Http.Add` | authentication/auth0/auth0.go:116-117 | `Values.Add` appends the value after the key's existing values and leaves every other key alone |
| `Sessions.Session.Load` | authentication/auth0/auth0.go:76 | a request's session starts as the cookie's values, both in memory and persisted |
| `Sessions.Session.Set` | authentication/auth0/auth0.go:77 | `Set` changes the in-memory map only |
| `Sessions.Session.Save` | authentication/auth0/auth0.go:78 | `Save` reports failure exactly when it fails, and only a successful save makes the cookie hold the in-memory map |
| `Sessions.Persist` | authentication/auth0/auth0.go:184-194 | after a request the cookie holds the written keys if the save succeeded and is unchanged otherwise |
| `Flow.SecondLoginInvalidatesFirst` | authentication/auth0/auth0.go:124-135 | after two successful logins (both sessions saved) with different random bytes, only the second state is stored, and a callback carrying the first is refused with 500 before any provider call, writing nothing |
| `Flow.LatestStateAccepted` | authentication/auth0/auth0.go:124-146 | a callback carrying the latest successful login's state and a code reaches the code exchange |
| `Flow.MissingStateSkipsCheck` | authentication/auth0/auth0.go:127 | with no `state` in the session the check is skipped and a callback with a code reaches the exchange |
| `Flow.LoginRequestsStoredState` | authentication/auth0/auth0.go:75-86 | after `Open`, the authorization request of a login carries exactly the stored state, the configured scopes string and the configured client id |
| `Flow.CallbackAuthenticates` | authentication/auth0/auth0.go:184-196 | starting logged out, the landing page admits the user after a callback exactly when that callback succeeded, and then renders the decoded claims |
| `Flow.CallbackPersistsOnlyOnSuccess` | authentication/auth0/auth0.go:184-194 | every failed callback leaves the cookie unchanged, and no callback changes the stored `state` |
| `Flow.LoginKeepsProfile` | authentication/auth0/auth0.go:75-84 | a login, successful or not, never changes whether the user is logged in |
| `Flow.LogoutTargetsProvider` | authentication/auth0/auth0.go:90-118 | when the return address renders as written and the logout URI has neither parameter, the logout page gets exactly one `returnTo`, `http(s)://host` with `https` iff TLS, and one `client_id`, the configured client |
| `Config.ParseLevel` | config/config.go:34-47 | exactly `debug`, `info`, `warn`, `panic`, `fatal` decode, each to the level of that name; anything else, `error` and `""` included, is an unknown-level error for that name |
| `Config.ParseLevelName` | config/config.go:34-47 | every level except `error` and `dpanic` is chosen by its own name; those two cannot be chosen by any string |
| `Config.DecodeLogger` | config/config.go:23-55 | a JSON error is returned as is; decoding succeeds exactly when the level decodes, and then keeps the encoding verbatim |
| `Config.Logger.constructor` | config/config.go:18-21 | a fresh logger configuration has zap's zero level, `Info`, and no encoding |
| `Config.Logger.UnmarshalJSON` | config/config.go:23-55 | assigns level and encoding exactly when `DecodeLogger` succeeds; on an error returns it and leaves the receiver as it was |
| `Config.RegistryIsAuth0Only` | config/config.go:101-103 | the registry (the constant `Config.AuthenticatorsConfig`) knows exactly the type `auth0`, which starts from an empty `auth0.Config` |
| `Config.DecodeAuthenticator` | config/config.go:68-95 | a JSON error is a parse-authenticator error; an unknown type is an unknown-connector-type error for that type; an empty `config` keeps the fresh zero-valued connector config; otherwise the env-expanded text is parsed into it and a parse error is reported; on success the stored type is the input type |
| `Config.Authenticator.constructor` | config/config.go:63-66 | a fresh `Authenticator` is the zero value: empty type, nil connector config |
| `Config.Authenticator.UnmarshalJSON` | config/config.go:68-95 | assigns type and connector config exactly when `DecodeAuthenticator` succeeds; on an error leaves the receiver as it was |
| `Server.Index` | server/server.go:56-67 | no `profile` redirects (307) to `/login`; a `profile` renders 200 with that profile |
| `Server.BindLetter` | server/server.go:77 | binding succeeds exactly when the required `letter` field is non-empty, and yields it |
| `Server.ParseLetterPathOf` | server/server.go:83 | the file name `letters/<version>/mob_<unix>.txt` gives back its version and its second |
| `Server.LetterPathInjective` | server/server.go:83 | two letters share a file only when they have the same version and the same second |
| `Server.FormValues` | server/server.go:77 | the form values bound are, for every key, the body's values followed by the query's, so the first value comes from the body whenever the body has one |
| `Server.LetterPath` | server/server.go:83 | the file name is `letters/`, the version, `/mob_`, the second and `.txt` (read back by `ParseLetterPathOf`) |
| `Server.Submit` | server/server.go:69-91 | always a 301 redirect to `/`, whether binding fails, the write fails or it succeeds; a write is attempted exactly when binding succeeds, with the letter's text, to the file whose name reads back as version `draft` iff the `submit` field is exactly `Save Draft` (else `final`) and the given second; the session is not an input |
| `Decimal.Format` | server/server.go:83 | `%d` gives at least one character, a leading `-` exactly for negative numbers, and digits everywhere else |
| `Decimal.ParseNatDigits` | server/server.go:83 | the digits of a natural number parse back to it |
| `Decimal.ParseFormat` | server/server.go:83 | parsing Go's `%d` rendering of an integer gives it back |
| `Decimal.FormatInjective` | server/server.go:83 | distinct seconds render differently |

## Left out

- The `authentication.Provider` interface (authentication/authentication.go) is not a trait here. Its one implementation's three handlers are members of the `Auth0.Auth0` datatype.
- OIDC discovery, the OAuth2 code exchange and ID-token signature, issuer, expiry and audience checks are network and crypto library calls. They are inputs (`Discovery`, `IdentityProvider`). The model records the audience passed, not what verification does with it.
- `crypto/rand` is an input: 32 bytes, or `None` for an error.
- `net/url` (`url.Parse`, `URL.String`, `Values.Encode`, percent-escaping) is an input (`UrlCodec`). `Auth0.AuthCodeURL` follows the documented behaviour of `golang.org/x/oauth2`'s `AuthCodeURL`, which is not part of this model. The query order it encodes is the codec's concern.
- `Http.Url` keeps only the scheme, host, path and query of a parsed URL. A fragment, user info, opaque part or raw (escaped) path of `Issuer+LogoutUri`, which Go's `URL.String` would keep in the logout target, is not represented.
- Cookie signing, gob serialisation and the cookie itself are abstract. A session is a map, and `Save`'s success is an input.
- The HTTP framework is left out: gin contexts, route registration, middleware and template rendering (server/server.go:32-54, 99-107). Handlers return an `Outcome` value instead.
- `Server.BindLetter` reads only the `letter` field of the URL-encoded form. Content-type negotiation and other body formats of gin's binding are not modelled.
- JSON parsing is left out: `json.Unmarshal` results are inputs, and claims and token fields are already-decoded `Json` values. JSON numbers are integers here, not floats.
- The token endpoint's response is taken to be JSON, so `Token.Extra` is a lookup in its decoded fields. For a form-encoded response, `oauth2`'s `Extra` gives `""` for a missing key, and the callback would then make a `Verify` call with an empty token that the model does not record. The response would be 401 either way.
- Error texts are constructors of `Config.ConfigError` rather than formatted strings (`%q` quoting is not modelled).
- `cmd/mob/main.go` is left out: file reading, YAML parsing, flags and `os.ExpandEnv`. `os.ExpandEnv` is an input function.
- `Application.Initialize`, logger construction, all logging, `time.Now` and `ioutil.WriteFile` are left out. The time is an input, and a write's success is an input whose value does not change the response.
- The plain `Config` and `Server` records of config/config.go:13-16 and 57-61 carry no logic and are not modelled.
- Concurrency is left out. Each request touches only its own session, so the model is sequential, and flows across requests go through the cookie (`Flow.After`).
- Unix seconds are unbounded integers rather than `int64`.
