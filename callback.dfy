/**
 * `/auth/callback` (functions/auth/callback.js): checks the returned state
 * against the `pre_auth` cookie, exchanges the authorization code and the
 * PKCE verifier for tokens, and stores the session in the encrypted
 * `oauth_token` cookie.
 */
module Callback {
  import opened Wrappers
  import opened Js
  import opened Config
  import opened Session
  import opened Http

  /**
   * `cookies.pre_auth ? JSON.parse(cookies.pre_auth) : null`; `None` when
   * `JSON.parse` throws, which it does on a JWE.
   */
  function ReadPreAuth(cookies: map<string, CookieValue>): Option<Value> {
    if "pre_auth" !in cookies then Some(Null)
    else match cookies["pre_auth"]
      case Empty => Some(Null)
      case JsonText(v) => Some(v)
      case Jwe(_) => None
  }

  /** The provider's authorization-code token endpoint for this tenant. */
  function ExchangeUrl(cfg: AppConfig): string {
    "https://" + cfg.region + "-app.contentstack.com/apps-api/apps/" + cfg.appUid + "/tokens"
  }

  /**
   * The token request of section 4.1.3 of RFC 6749 with the `code_verifier`
   * of section 4.5 of RFC 7636, sent as a JSON object; the fields are in
   * the order the handler writes them.
   */
  function ExchangeRequest(cfg: AppConfig, code: string, verifier: Value): ProviderRequest {
    ProviderRequest(ExchangeUrl(cfg), "application/json", [
      ("grant_type", Str("authorization_code")),
      ("code", Str(code)),
      ("redirect_uri", Str(cfg.redirectUri)),
      ("client_id", Str(cfg.clientId)),
      ("client_secret", Str(cfg.clientSecret)),
      ("code_verifier", verifier)])
  }

  /** `json.error_description || json.error || json` */
  function ProviderError(json: Value): (e: Value)
    ensures Truthy(Get(json, "error_description")) ==> e == Get(json, "error_description")
    ensures !Truthy(Get(json, "error_description")) && Truthy(Get(json, "error")) ==> e == Get(json, "error")
    ensures !Truthy(Get(json, "error_description")) && !Truthy(Get(json, "error")) ==> e == json
  {
    Or(Or(Get(json, "error_description"), Get(json, "error")), json)
  }

  /** The session payload built from a successful token reply at time `now` (seconds). */
  function SessionFromExchange(app: string, json: Value, cfg: AppConfig, now: int): (p: Payload)
    ensures p.app == app && p.obtainedAt == now && p.expiresAt == now + Lifetime(json)
    ensures p.accessToken == Get(json, "access_token") && p.refreshToken == Get(json, "refresh_token")
    ensures Truthy(p.tokenType)
    ensures p.tokenType == (if Truthy(Get(json, "token_type")) then Get(json, "token_type") else Str("Bearer"))
    ensures Truthy(Get(json, "scope")) ==> p.scope == Get(json, "scope")
    ensures !Truthy(Get(json, "scope")) ==> p.scope == (if cfg.scope != "" then Str(cfg.scope) else Null)
    ensures p.location == Undefined && p.organizationUid == Undefined && p.others == map[]
  {
    Payload(
      app,
      Get(json, "access_token"),
      Get(json, "refresh_token"),
      Or(Get(json, "token_type"), Str("Bearer")),
      Or(Or(Get(json, "scope"), Str(cfg.scope)), Null),
      now + Lifetime(json),
      now,
      Undefined,
      Undefined,
      map[])
  }

  /** The success response: the session cookie, the cleared `pre_auth` cookie, and the completion page. */
  function CompletionReply(claims: Payload): Reply {
    Reply(200,
      map["Set-Cookie" := SetCookies([
            RelayCookie("oauth_token", Jwe(claims), SessionLifetime, "lax"),
            RelayCookie("pre_auth", Empty, 0, "lax")]),
          "Content-Type" := Text(HtmlType)],
      CompletionPage, true)
  }

  /**
   * What the handler does. `nowMs` is `Date.now()`, `provider` answers the
   * token request.
   */
  function CallbackOutcome(req: Request, env: Env, nowMs: nat, provider: ProviderRequest -> ProviderReply): Outcome {
    if req.httpMethod != "GET" then
      Outcome(JsonReply(405, ErrorBody(Str("Method not allowed"))), None, false)
    else if EnvGet(env, "COOKIE_SECRET") == "" then
      Outcome(JsonReply(500, ErrorBody(Str("Missing COOKIE_SECRET"))), None, false)
    else if !Present(QueryGet(req, "code")) || !Present(QueryGet(req, "state")) then
      Outcome(JsonReply(400, ErrorBody(Str("Missing code/state"))), None, false)
    else match ReadPreAuth(req.cookies)
      case None => Outcome(Initial, None, true)
      case Some(preAuth) =>
        if !Truthy(preAuth) || Get(preAuth, "state") != Str(QueryGet(req, "state").value) then
          Outcome(JsonReply(400, ErrorBody(Str("Invalid state"))), None, false)
        else if !Get(preAuth, "app").Str? then
          Outcome(Initial, None, true)   // `toUpperCase` of a non-string
        else match ResolveConfig(env, Get(preAuth, "app").s)
          case ConfigErr(e) => Outcome(JsonReply(500, ErrorBody(Str(e))), None, false)
          case ConfigOk(cfg) =>
            var request := ExchangeRequest(cfg, QueryGet(req, "code").value, Get(preAuth, "codeVerifier"));
            var resp := provider(request);
            if Nullish(resp.body) then
              Outcome(Initial, Some(request), true)   // a property read on `null`
            else if !resp.Ok() then
              Outcome(JsonReply(resp.status, ErrorBody(ProviderError(resp.body))), Some(request), false)
            else
              var now := nowMs / 1000;
              Outcome(CompletionReply(Sealed(SessionFromExchange(Get(preAuth, "app").s, resp.body, cfg, now), now)), Some(request), false)
  }

  /** The handler, step by step on `res`; it returns the request it sent and whether it threw. */
  method HandleCallback(req: Request, env: Env, nowMs: nat, provider: ProviderRequest -> ProviderReply, res: Response)
      returns (sent: Option<ProviderRequest>, threw: bool)
    requires res.Snapshot() == Initial
    modifies res
    ensures Outcome(res.Snapshot(), sent, threw) == CallbackOutcome(req, env, nowMs, provider)
  {
    sent, threw := None, false;
    if req.httpMethod != "GET" {
      res.SetStatus(405);
      res.Json(ErrorBody(Str("Method not allowed")));
      return;
    }
    var cookieSecret := EnvGet(env, "COOKIE_SECRET");
    if cookieSecret == "" {
      res.SetStatus(500);
      res.Json(ErrorBody(Str("Missing COOKIE_SECRET")));
      return;
    }
    var code := QueryGet(req, "code");
    var returnedState := QueryGet(req, "state");
    if !Present(code) || !Present(returnedState) {
      res.SetStatus(400);
      res.Json(ErrorBody(Str("Missing code/state")));
      return;
    }
    var parsed := ReadPreAuth(req.cookies);
    if parsed.None? {
      threw := true;
      return;
    }
    var preAuth := parsed.value;
    if !Truthy(preAuth) || Get(preAuth, "state") != Str(returnedState.value) {
      res.SetStatus(400);
      res.Json(ErrorBody(Str("Invalid state")));
      return;
    }
    var app := Get(preAuth, "app");
    if !app.Str? {
      threw := true;
      return;
    }
    var r := GetAppConfig(env, app.s);
    if !r.ConfigOk? {
      res.SetStatus(500);
      res.Json(ErrorBody(Str(r.error)));
      return;
    }
    var cfg := r.cfg;

    var request := ExchangeRequest(cfg, code.value, Get(preAuth, "codeVerifier"));
    var resp := provider(request);
    sent := Some(request);
    var json := resp.body;
    if Nullish(json) {
      threw := true;
      return;
    }
    if !resp.Ok() {
      res.SetStatus(resp.status);
      res.Json(ErrorBody(ProviderError(json)));
      return;
    }

    var now := nowMs / 1000;
    var payload := SessionFromExchange(app.s, json, cfg, now);
    var jwe := Sealed(payload, now);
    var tokenCookie := RelayCookie("oauth_token", Jwe(jwe), SessionLifetime, "lax");
    var clearPre := RelayCookie("pre_auth", Empty, 0, "lax");
    res.SetHeader("Set-Cookie", SetCookies([tokenCookie, clearPre]));
    res.SetHeader("Content-Type", Text(HtmlType));
    res.End(CompletionPage);
  }

  // ---- properties --------------------------------------------------------

  /**
   * The gates before any exchange: a non-GET is 405, a missing
   * `COOKIE_SECRET` is 500, a missing code or state is 400, in this order;
   * none of them contacts the provider or sets a cookie.
   */
  lemma CallbackGates(req: Request, env: Env, nowMs: nat, provider: ProviderRequest -> ProviderReply)
    ensures var o := CallbackOutcome(req, env, nowMs, provider);
      && (req.httpMethod != "GET" ==> o.reply.status == 405)
      && (req.httpMethod == "GET" && EnvGet(env, "COOKIE_SECRET") == "" ==>
            o.reply.status == 500 && o.reply.body == JsonBody(ErrorBody(Str("Missing COOKIE_SECRET"))))
      && (req.httpMethod == "GET" && EnvGet(env, "COOKIE_SECRET") != ""
            && (!Present(QueryGet(req, "code")) || !Present(QueryGet(req, "state"))) ==>
              o.reply.status == 400 && o.reply.body == JsonBody(ErrorBody(Str("Missing code/state"))))
      && (req.httpMethod != "GET" || EnvGet(env, "COOKIE_SECRET") == ""
            || !Present(QueryGet(req, "code")) || !Present(QueryGet(req, "state")) ==>
              o.sent.None? && !o.threw && "Set-Cookie" !in o.reply.headers)
  {
  }

  /**
   * The provider is contacted only when the returned state equals the state
   * in the `pre_auth` cookie (section 10.12 of RFC 6749), and then with the
   * returned code and the verifier from the same cookie (section 4.5 of
   * RFC 7636), at the token endpoint of the tenant named in that cookie.
   */
  lemma ExchangeRequiresState(req: Request, env: Env, nowMs: nat, provider: ProviderRequest -> ProviderReply)
    requires CallbackOutcome(req, env, nowMs, provider).sent.Some?
    ensures var sent := CallbackOutcome(req, env, nowMs, provider).sent.value;
      && req.httpMethod == "GET" && EnvGet(env, "COOKIE_SECRET") != ""
      && Present(QueryGet(req, "code")) && Present(QueryGet(req, "state"))
      && "pre_auth" in req.cookies && req.cookies["pre_auth"].JsonText?
      && var preAuth := req.cookies["pre_auth"].json;
      && Get(preAuth, "state") == Str(QueryGet(req, "state").value)
      && Get(preAuth, "app").Str?
      && ResolveConfig(env, Get(preAuth, "app").s).ConfigOk?
      && sent == ExchangeRequest(ResolveConfig(env, Get(preAuth, "app").s).cfg, QueryGet(req, "code").value, Get(preAuth, "codeVerifier"))
  {
  }

  /** A state that differs from the cookie's, or no cookie at all, is refused with 400 "Invalid state". */
  lemma StateMismatchRefused(req: Request, env: Env, nowMs: nat, provider: ProviderRequest -> ProviderReply)
    requires req.httpMethod == "GET" && EnvGet(env, "COOKIE_SECRET") != ""
    requires Present(QueryGet(req, "code")) && Present(QueryGet(req, "state"))
    requires ReadPreAuth(req.cookies).Some?
    requires Get(ReadPreAuth(req.cookies).value, "state") != Str(QueryGet(req, "state").value)
    ensures var o := CallbackOutcome(req, env, nowMs, provider);
      o.reply == JsonReply(400, ErrorBody(Str("Invalid state"))) && o.sent.None? && !o.threw
  {
  }

  /** A session cookie is set exactly when the provider accepted the exchange. */
  lemma SessionIffAccepted(req: Request, env: Env, nowMs: nat, provider: ProviderRequest -> ProviderReply)
    ensures var o := CallbackOutcome(req, env, nowMs, provider);
      "Set-Cookie" in o.reply.headers <==>
        o.sent.Some? && provider(o.sent.value).Ok() && !Nullish(provider(o.sent.value).body)
  {
    if req.httpMethod == "GET" && EnvGet(env, "COOKIE_SECRET") != ""
      && Present(QueryGet(req, "code")) && Present(QueryGet(req, "state")) && ReadPreAuth(req.cookies).Some?
    {
      var preAuth := ReadPreAuth(req.cookies).value;
      if Truthy(preAuth) && Get(preAuth, "state") == Str(QueryGet(req, "state").value)
        && Get(preAuth, "app").Str? && ResolveConfig(env, Get(preAuth, "app").s).ConfigOk?
      {
        var cfg := ResolveConfig(env, Get(preAuth, "app").s).cfg;
        var request := ExchangeRequest(cfg, QueryGet(req, "code").value, Get(preAuth, "codeVerifier"));
        var resp := provider(request);
        if !Nullish(resp.body) && resp.Ok() {
          var now := nowMs / 1000;
          assert CallbackOutcome(req, env, nowMs, provider)
            == Outcome(CompletionReply(Sealed(SessionFromExchange(Get(preAuth, "app").s, resp.body, cfg, now), now)), Some(request), false);
        }
      }
    }
  }

  /**
   * Cookies are set only by the completion page: the encrypted session,
   * living 30 days, and the `pre_auth` cookie cleared.
   */
  lemma CompletionCookies(req: Request, env: Env, nowMs: nat, provider: ProviderRequest -> ProviderReply)
    requires "Set-Cookie" in CallbackOutcome(req, env, nowMs, provider).reply.headers
    ensures var o := CallbackOutcome(req, env, nowMs, provider);
      && o.reply.status == 200 && o.reply.body == CompletionPage && !o.threw
      && o.reply.headers["Content-Type"] == Text(HtmlType)
      && o.reply.headers["Set-Cookie"].SetCookies?
      && var cs := o.reply.headers["Set-Cookie"].cookies;
      && |cs| == 2
      && cs[0].name == "oauth_token" && cs[0].value.Jwe? && cs[0].maxAge == SessionLifetime
      && cs[0].httpOnly && cs[0].secure
      && cs[1].name == "pre_auth" && cs[1].value == Empty && cs[1].maxAge == 0
  {
  }

  /**
   * A rejected exchange is passed through: the provider's status, and its
   * `error_description`, else its `error`, else its whole body; no cookie
   * is set.
   */
  lemma ProviderRejectionForwarded(req: Request, env: Env, nowMs: nat, provider: ProviderRequest -> ProviderReply)
    requires CallbackOutcome(req, env, nowMs, provider).sent.Some?
    requires var resp := provider(CallbackOutcome(req, env, nowMs, provider).sent.value);
      !resp.Ok() && !Nullish(resp.body)
    ensures var o := CallbackOutcome(req, env, nowMs, provider);
      var resp := provider(o.sent.value);
      && o.reply == JsonReply(resp.status, ErrorBody(ProviderError(resp.body)))
      && !o.threw && "Set-Cookie" !in o.reply.headers
  {
    ExchangeRequiresState(req, env, nowMs, provider);
  }

  /**
   * The stored session names the tenant of the `pre_auth` cookie, carries
   * the provider's tokens, and is sealed with `iat` now and `exp` 30 days on.
   */
  lemma StoredSession(req: Request, env: Env, nowMs: nat, provider: ProviderRequest -> ProviderReply)
    requires var o := CallbackOutcome(req, env, nowMs, provider); "Set-Cookie" in o.reply.headers
    ensures var o := CallbackOutcome(req, env, nowMs, provider);
      && o.sent.Some?
      && var json := provider(o.sent.value).body;
      && var preAuth := req.cookies["pre_auth"].json;
      && o.reply.headers["Set-Cookie"].SetCookies?
      && |o.reply.headers["Set-Cookie"].cookies| == 2
      && var claims := o.reply.headers["Set-Cookie"].cookies[0].value.claims;
      && Str(claims.app) == Get(preAuth, "app")
      && claims.accessToken == Get(json, "access_token")
      && claims.refreshToken == Get(json, "refresh_token")
      && claims.obtainedAt == nowMs / 1000
      && claims.expiresAt == nowMs / 1000 + Lifetime(json)
      && claims.others == map["iat" := Num(nowMs / 1000), "exp" := Num(nowMs / 1000 + SessionLifetime)]
  {
    SessionIffAccepted(req, env, nowMs, provider);
    CompletionCookies(req, env, nowMs, provider);
    ExchangeRequiresState(req, env, nowMs, provider);
  }

  /**
   * Conversely, once the gates pass and the returned state equals the
   * cookie's, the code is exchanged with the cookie's verifier at the
   * cookie's tenant.
   */
  lemma StateMatchExchanges(req: Request, env: Env, nowMs: nat, provider: ProviderRequest -> ProviderReply)
    requires req.httpMethod == "GET" && EnvGet(env, "COOKIE_SECRET") != ""
    requires Present(QueryGet(req, "code")) && Present(QueryGet(req, "state"))
    requires ReadPreAuth(req.cookies).Some?
    requires var v := ReadPreAuth(req.cookies).value;
      && Truthy(v) && Get(v, "state") == Str(QueryGet(req, "state").value)
      && Get(v, "app").Str? && ResolveConfig(env, Get(v, "app").s).ConfigOk?
    ensures var v := ReadPreAuth(req.cookies).value;
      CallbackOutcome(req, env, nowMs, provider).sent
        == Some(ExchangeRequest(ResolveConfig(env, Get(v, "app").s).cfg, QueryGet(req, "code").value, Get(v, "codeVerifier")))
  {
  }

  /** The session a reply stores in its first cookie, if that cookie is an encrypted session. */
  function IssuedSession(r: Reply): Option<Payload> {
    if FirstCookie(r).Some? && FirstCookie(r).value.Jwe? then Some(FirstCookie(r).value.claims) else None
  }

  /**
   * A stored session belongs to a configured tenant and was obtained from
   * the provider's reply to the exchange, sealed to expire 30 days on.
   */
  lemma IssuedSessionClaims(req: Request, env: Env, nowMs: nat, provider: ProviderRequest -> ProviderReply)
    requires IssuedSession(CallbackOutcome(req, env, nowMs, provider).reply).Some?
    ensures var o := CallbackOutcome(req, env, nowMs, provider);
      && o.sent.Some?
      && var json := provider(o.sent.value).body;
      && var claims := IssuedSession(o.reply).value;
      && ResolveConfig(env, claims.app).ConfigOk?
      && claims.accessToken == Get(json, "access_token")
      && claims.obtainedAt == nowMs / 1000
      && claims.expiresAt == nowMs / 1000 + Lifetime(json)
      && Get(Obj(claims.others), "exp") == Num(nowMs / 1000 + SessionLifetime)
  {
    SessionIffAccepted(req, env, nowMs, provider);
    CompletionCookies(req, env, nowMs, provider);
    StoredSession(req, env, nowMs, provider);
    ExchangeRequiresState(req, env, nowMs, provider);
  }
}
