/**
 * Properties of whole login flows across requests. Between two requests
 * the session lives in its cookie, so a request sees what the previous
 * ones persisted.
 */
module Flow {
  import opened Wrappers
  import opened Base64
  import opened Sessions
  import opened Http
  import opened Auth0
  import Server

  /** The cookie after a handler ran on a session loaded from `cookie`. */
  function After(cookie: Store, run: Run): Store
  {
    Persist(cookie, run.writes, run.saved)
  }

  /** After two successful logins only the second state is in the session, so a callback carrying the first is refused before any provider call. */
  lemma SecondLoginInvalidatesFirst(a: Auth0, cookie: Store, b1: seq<byte>, b2: seq<byte>, codec: UrlCodec,
                                    req: Request, saveOk: bool)
    requires |b1| == 32 && |b2| == 32 && b1 != b2
    requires First(req.query, "state") == Encode(b1)
    ensures var c2 := After(After(cookie, a.LoginSpec(Some(b1), true, codec)), a.LoginSpec(Some(b2), true, codec));
            && Lookup(c2, "state") == Some(Str(Encode(b2)))
            && a.CallbackSpec(c2, req, saveOk) == Run(Render(StatusInternalServerError, Message(LoginError)), [], map[], false)
  {
    var c2 := After(After(cookie, a.LoginSpec(Some(b1), true, codec)), a.LoginSpec(Some(b2), true, codec));
    assert Lookup(c2, "state") == Some(Str(Encode(b2)));
    if Encode(b1) == Encode(b2) {
      EncodeInjective(b1, b2);
    }
    assert !StateAccepted(c2, req);
  }

  /** The state of the latest successful login passes the check: with a code, the flow goes on to the exchange. */
  lemma LatestStateAccepted(a: Auth0, cookie: Store, b: seq<byte>, codec: UrlCodec, req: Request, saveOk: bool)
    requires |b| == 32
    requires First(req.query, "state") == Encode(b) && First(req.query, "code") != ""
    ensures var c := After(cookie, a.LoginSpec(Some(b), true, codec));
            a.CallbackSpec(c, req, saveOk).calls[0] == Exchange(First(req.query, "code"))
  {
    var c := After(cookie, a.LoginSpec(Some(b), true, codec));
    assert Lookup(c, "state") == Some(Str(Encode(b)));
    assert StateAccepted(c, req);
  }

  /** With no state in the session the check is skipped: a callback with a code always reaches the exchange. */
  lemma MissingStateSkipsCheck(a: Auth0, cookie: Store, req: Request, saveOk: bool)
    requires "state" !in cookie && First(req.query, "code") != ""
    ensures a.CallbackSpec(cookie, req, saveOk).calls[0] == Exchange(First(req.query, "code"))
  {
    assert StateAccepted(cookie, req);
  }

  /** A login sends the state it stored as the authorization request's `state`, with the configured client and scopes. */
  lemma LoginRequestsStoredState(c: Config, d: Discovery, b: seq<byte>, saveOk: bool, codec: UrlCodec)
    requires |b| == 32
    ensures var a := Open(c, Some(d)).value;
            var r := a.LoginSpec(Some(b), saveOk, codec);
            var params := AuthCodeParams(a.oauth, Encode(b));
            && All(params, "state") == [r.writes["state"].s]
            && All(params, "scope") == [c.scopes]
            && All(params, "client_id") == [c.clientId]
  {
  }

  /** The landing page lets a user in after a callback exactly when that callback succeeded, and then shows the decoded claims. */
  lemma CallbackAuthenticates(a: Auth0, cookie: Store, req: Request, saveOk: bool)
    requires "profile" !in cookie
    ensures var r := a.CallbackSpec(cookie, req, saveOk);
            && (Server.Index(After(cookie, r)).Render? <==> r.outcome.Redirect?)
            && (r.outcome.Redirect? ==>
                  Server.Index(After(cookie, r)) == Render(StatusOK, Page(r.writes["profile"])))
  {
  }

  /** A failed callback, however far it got, leaves the cookie as it was; a successful one leaves `state` in place. */
  lemma CallbackPersistsOnlyOnSuccess(a: Auth0, cookie: Store, req: Request, saveOk: bool)
    ensures var r := a.CallbackSpec(cookie, req, saveOk);
            && (!r.outcome.Redirect? ==> After(cookie, r) == cookie)
            && Lookup(After(cookie, r), "state") == Lookup(cookie, "state")
  {
  }

  /** A login never changes whether the user is logged in. */
  lemma LoginKeepsProfile(a: Auth0, cookie: Store, entropy: Option<seq<byte>>, saveOk: bool, codec: UrlCodec)
    requires entropy.Some? ==> |entropy.value| == 32
    ensures Server.Index(After(cookie, a.LoginSpec(entropy, saveOk, codec))) == Server.Index(cookie)
  {
  }

  /**
   * When `net/url` renders the return address as it was written and the
   * logout URI carries neither parameter, the provider's logout page gets
   * exactly one `returnTo`, the request's scheme and host, and one
   * `client_id`, the configured client.
   */
  lemma LogoutTargetsProvider(a: Auth0, req: Request, codec: UrlCodec)
    requires a.Opened()
    requires codec.parse(a.ReturnTo(req)).Some? && codec.render(codec.parse(a.ReturnTo(req)).value) == a.ReturnTo(req)
    requires codec.parse(a.config.issuer + a.config.logoutUri).Some?
    requires var q := codec.parse(a.config.issuer + a.config.logoutUri).value.query;
             "returnTo" !in q && "client_id" !in q
    ensures var target := codec.parse(a.config.issuer + a.config.logoutUri).value;
            var q := LogoutQuery(target.query, a.ReturnTo(req), a.oauth.clientId);
            && a.LogoutSpec(req, codec) == Redirect(StatusTemporaryRedirect, codec.render(target.(query := q)))
            && All(q, "returnTo") == [(if req.tls then "https" else "http") + "://" + req.host]
            && All(q, "client_id") == [a.config.clientId]
  {
  }
}
