/**
 * `/auth/token` (functions/auth/token.js): answers the browser's CORS
 * checks, reads the session cookie, refreshes the access token when it is
 * about to expire, and returns the session's public view.
 */
module Token {
  import opened Wrappers
  import opened Js
  import opened Strings
  import opened Config
  import opened Session
  import opened Http

  // ---- handleCors --------------------------------------------------------

  /** The entries of `ALLOWED_ORIGIN`, parsed like `APP_LABELS`. */
  function AllowedOrigins(env: Env): seq<string> {
    ParseList(EnvGet(env, "ALLOWED_ORIGIN"))
  }

  /** `a.startsWith("*.") && origin.endsWith(a.slice(1))`: a wildcard entry covering the origin's host suffix. */
  predicate WildcardMatch(a: string, origin: string) {
    StartsWith(a, "*.") && EndsWith(origin, a[1..])
  }

  /** `allowed.some(a => WildcardMatch(a, origin))` */
  function AnyWildcard(allowed: seq<string>, origin: string): bool {
    if allowed == [] then false
    else WildcardMatch(allowed[0], origin) || AnyWildcard(allowed[1..], origin)
  }

  /** `AnyWildcard` holds exactly when some entry of the list covers the origin. */
  lemma {:induction false} AnyWildcardIff(allowed: seq<string>, origin: string)
    ensures AnyWildcard(allowed, origin) <==> exists a :: a in allowed && WildcardMatch(a, origin)
  {
    if allowed != [] {
      AnyWildcardIff(allowed[1..], origin);
      assert forall a :: a in allowed <==> a == allowed[0] || a in allowed[1..];
    }
  }

  /** The loop behind `allowed.some(...)`, stopping at the first match. */
  method SomeWildcard(allowed: seq<string>, origin: string) returns (found: bool)
    ensures found == AnyWildcard(allowed, origin)
  {
    AnyWildcardIff(allowed, origin);
    found := false;
    var i := 0;
    while i < |allowed| && !found
      invariant 0 <= i <= |allowed|
      invariant found <==> exists j :: 0 <= j < i && WildcardMatch(allowed[j], origin)
    {
      found := WildcardMatch(allowed[i], origin);
      i := i + 1;
    }
  }

  /** The origin is echoed back: it is present, non-empty, and listed exactly or under a wildcard. */
  predicate OriginAllowed(origin: Option<string>, allowed: seq<string>) {
    origin.Some? && origin.value != "" && (origin.value in allowed || AnyWildcard(allowed, origin.value))
  }

  /** The headers `handleCors` sets. */
  function CorsHeaders(origin: Option<string>, allowed: seq<string>): map<string, HeaderValue> {
    var echo: map<string, HeaderValue> := if OriginAllowed(origin, allowed) then map["Access-Control-Allow-Origin" := Text(origin.value)] else map[];
    echo["Vary" := Text("Origin")]
        ["Access-Control-Allow-Credentials" := Text("true")]
        ["Access-Control-Allow-Headers" := Text("Content-Type")]
        ["Access-Control-Allow-Methods" := Text("GET, OPTIONS")]
  }

  /** The CORS headers of a request. */
  function RequestCors(req: Request, env: Env): map<string, HeaderValue> {
    CorsHeaders(req.origin, AllowedOrigins(env))
  }

  /** `handleCors(req, res)`: sets the CORS headers; answers a preflight and reports that it did. */
  method HandleCors(req: Request, env: Env, res: Response) returns (done: bool)
    requires res.Snapshot() == Initial
    modifies res
    ensures done <==> req.httpMethod == "OPTIONS"
    ensures res.Snapshot() == Reply(200, RequestCors(req, env), NoBody, done)
  {
    var origin := req.origin;
    var allowed := ParseList(EnvGet(env, "ALLOWED_ORIGIN"));
    var ok := origin.Some? && origin.value != "" && origin.value in allowed;
    if !ok && origin.Some? && origin.value != "" {
      ok := SomeWildcard(allowed, origin.value);
    }
    if ok {
      res.SetHeader("Access-Control-Allow-Origin", Text(origin.value));
    }
    res.SetHeader("Vary", Text("Origin"));
    res.SetHeader("Access-Control-Allow-Credentials", Text("true"));
    res.SetHeader("Access-Control-Allow-Headers", Text("Content-Type"));
    res.SetHeader("Access-Control-Allow-Methods", Text("GET, OPTIONS"));
    if req.httpMethod == "OPTIONS" {
      res.SetStatus(200);
      res.End(NoBody);
      return true;
    }
    return false;
  }

  // ---- sendJson, formEncode ----------------------------------------------

  /** The reply `sendJson(res, status, obj)` leaves on a response carrying `headers`. */
  function JsonSent(headers: map<string, HeaderValue>, status: int, obj: Value): Reply {
    Reply(status, headers["Content-Type" := Text(JsonType)], JsonBody(obj), true)
  }

  /** `sendJson(res, status, obj)` */
  method SendJson(res: Response, status: int, obj: Value)
    requires !res.finished
    modifies res
    ensures res.Snapshot() == JsonSent(old(res.headers), status, obj)
  {
    res.SetStatus(status);
    res.SetHeader("Content-Type", Text(JsonType));
    res.End(JsonBody(obj));
  }

  /**
   * The pairs `formEncode(obj)` puts in the form: the entries whose value
   * is neither `undefined` nor `null`, in order. Turning them into
   * `application/x-www-form-urlencoded` text is not modelled.
   */
  function FormEncode(entries: seq<(string, Value)>): seq<(string, Value)> {
    if entries == [] then []
    else if Nullish(entries[0].1) then FormEncode(entries[1..])
    else [entries[0]] + FormEncode(entries[1..])
  }

  /** The number of entries whose value is `undefined` or `null`. */
  function NullishCount(entries: seq<(string, Value)>): nat {
    if entries == [] then 0
    else (if Nullish(entries[0].1) then 1 else 0) + NullishCount(entries[1..])
  }

  /**
   * `formEncode` keeps, in order, exactly the entries whose value is neither
   * `undefined` nor `null`: an ordered selection of non-nullish entries
   * that has one element per non-nullish entry is that whole list.
   */
  lemma {:induction false} FormEncodeFilters(entries: seq<(string, Value)>)
    ensures IsSubsequence(FormEncode(entries), entries)
    ensures forall e :: e in FormEncode(entries) ==> e in entries && !Nullish(e.1)
    ensures forall e :: e in entries && !Nullish(e.1) ==> e in FormEncode(entries)
    ensures |FormEncode(entries)| == |entries| - NullishCount(entries)
  {
    if entries != [] {
      var rest := FormEncode(entries[1..]);
      FormEncodeFilters(entries[1..]);
      assert [entries[0]] + entries[1..] == entries;
      if Nullish(entries[0].1) {
        SubsequenceSkip(rest, entries[1..], entries[0]);
      } else {
        assert ([entries[0]] + rest)[1..] == rest;
      }
    }
  }

  // ---- the session cookie ------------------------------------------------

  /** What `cookies.oauth_token` and `jwtDecrypt` yield. */
  datatype SessionCookie = NoSession | Unreadable | Session(claims: Payload)

  /**
   * No cookie (or an empty one) is no session. `jwtDecrypt` throws on
   * anything that is not a JWE of the relay, and on an `exp` claim that is
   * not a number or is not after `now`.
   */
  function ReadSession(cookies: map<string, CookieValue>, now: int): SessionCookie {
    if "oauth_token" !in cookies then NoSession
    else match cookies["oauth_token"]
      case Empty => NoSession
      case JsonText(_) => Unreadable
      case Jwe(claims) =>
        var exp := Get(Obj(claims.others), "exp");
        if exp != Undefined && (!exp.Num? || exp.n <= now) then Unreadable else Session(claims)
  }

  // ---- refresh -----------------------------------------------------------

  /** `(payload.expiresAt || 0) - now < 60`: the access token expires within a minute, or already has. */
  predicate NeedsRefresh(p: Payload, now: int) {
    p.expiresAt - now < 60
  }

  /** The provider's refresh endpoint for this tenant. */
  function RefreshUrl(cfg: AppConfig): string {
    "https://" + cfg.region + "-app.contentstack.com/apps-api/token"
  }

  /** The refresh request of section 6 of RFC 6749, form-encoded. */
  function RefreshRequest(cfg: AppConfig, refreshToken: Value): ProviderRequest {
    ProviderRequest(RefreshUrl(cfg), "application/x-www-form-urlencoded", FormEncode([
      ("grant_type", Str("refresh_token")),
      ("client_id", Str(cfg.clientId)),
      ("redirect_uri", Str(cfg.redirectUri)),
      ("refresh_token", refreshToken),
      ("client_secret", Or(Str(cfg.clientSecret), Undefined))]))
  }

  /**
   * The refreshed payload: each token field takes the reply's value when
   * that is truthy and keeps the old one otherwise; the expiry restarts at
   * `now`; every other member is kept.
   */
  function MergeRefresh(p: Payload, json: Value, now: int): Payload {
    p.(accessToken := Or(Get(json, "access_token"), p.accessToken),
       expiresAt := now + Lifetime(json),
       tokenType := Or(Get(json, "token_type"), p.tokenType),
       scope := Or(Get(json, "scope"), p.scope),
       refreshToken := Or(Get(json, "refresh_token"), p.refreshToken),
       location := Or(Get(json, "location"), p.location),
       organizationUid := Or(Get(json, "organization_uid"), p.organizationUid),
       obtainedAt := now)
  }

  /** The JSON the endpoint returns for a session: its public fields, with defaults. */
  function TokenView(p: Payload): (v: Value)
    ensures v.Obj? && v.fields.Keys == {"app", "tokenType", "accessToken", "expiresAt", "scope", "location", "organizationUid"}
  {
    Obj(map[
      "app" := Str(p.app),
      "tokenType" := Or(p.tokenType, Str("Bearer")),
      "accessToken" := p.accessToken,
      "expiresAt" := Num(p.expiresAt),
      "scope" := Or(p.scope, Null),
      "location" := Or(p.location, Null),
      "organizationUid" := Or(p.organizationUid, Null)])
  }

  // ---- the handler -------------------------------------------------------

  /** The cookie carrying a re-sealed session. */
  function SessionCookieHeader(claims: Payload): HeaderValue {
    SetCookies([RelayCookie("oauth_token", Jwe(claims), SessionLifetime, "lax")])
  }

  /** What the handler does; `nowMs` is `Date.now()`, `provider` answers the refresh request. */
  function TokenOutcome(req: Request, env: Env, nowMs: nat, provider: ProviderRequest -> ProviderReply): Outcome {
    var cors := RequestCors(req, env);
    if req.httpMethod == "OPTIONS" then Outcome(Reply(200, cors, NoBody, true), None, false)
    else if req.httpMethod != "GET" then Outcome(JsonSent(cors, 405, ErrorBody(Str("Method not allowed"))), None, false)
    else if EnvGet(env, "COOKIE_SECRET") == "" then Outcome(JsonSent(cors, 500, ErrorBody(Str("COOKIE_SECRET missing"))), None, false)
    else SessionOutcome(cors, env, ReadSession(req.cookies, nowMs / 1000), nowMs / 1000, provider)
  }

  /** What the handler does once the session cookie has been read, on a response carrying the CORS headers `cors`. */
  function SessionOutcome(cors: map<string, HeaderValue>, env: Env, session: SessionCookie, now: int, provider: ProviderRequest -> ProviderReply): Outcome {
    match session
    case NoSession => Outcome(JsonSent(cors, 401, ErrorBody(Str("Not authenticated"))), None, false)
    case Unreadable => Outcome(Reply(200, cors, NoBody, false), None, true)
    case Session(p) =>
      match ResolveConfig(env, p.app)
      case ConfigErr(e) => Outcome(JsonSent(cors, 500, ErrorBody(Str(e))), None, false)
      case ConfigOk(cfg) =>
        if NeedsRefresh(p, now) && Truthy(p.refreshToken) then RefreshOutcome(cors, p, cfg, now, provider)
        else Outcome(JsonSent(cors, 200, TokenView(p)), None, false)
  }

  /** The refresh branch: the request, and what the handler does with the provider's answer. */
  function RefreshOutcome(cors: map<string, HeaderValue>, p: Payload, cfg: AppConfig, now: int, provider: ProviderRequest -> ProviderReply): Outcome {
    var request := RefreshRequest(cfg, p.refreshToken);
    var resp := provider(request);
    if Nullish(resp.body) then Outcome(Reply(200, cors, NoBody, false), Some(request), true)
    else if !resp.Ok() then
      Outcome(JsonSent(cors, resp.status, ErrorBody(Or(Get(resp.body, "error"), Str("Failed to refresh token")))), Some(request), false)
    else
      var q := MergeRefresh(p, resp.body, now);
      Outcome(JsonSent(cors["Set-Cookie" := SessionCookieHeader(Sealed(q, now))], 200, TokenView(q)), Some(request), false)
  }

  /** The handler, step by step on `res`. */
  method HandleToken(req: Request, env: Env, nowMs: nat, provider: ProviderRequest -> ProviderReply, res: Response)
      returns (sent: Option<ProviderRequest>, threw: bool)
    requires res.Snapshot() == Initial
    modifies res
    ensures Outcome(res.Snapshot(), sent, threw) == TokenOutcome(req, env, nowMs, provider)
  {
    sent, threw := None, false;
    var done := HandleCors(req, env, res);
    if done {
      return;
    }
    if req.httpMethod != "GET" {
      SendJson(res, 405, ErrorBody(Str("Method not allowed")));
      return;
    }
    var cookieSecret := EnvGet(env, "COOKIE_SECRET");
    if cookieSecret == "" {
      SendJson(res, 500, ErrorBody(Str("COOKIE_SECRET missing")));
      return;
    }
    var now := nowMs / 1000;
    var session := ReadSession(req.cookies, now);
    if session.NoSession? {
      SendJson(res, 401, ErrorBody(Str("Not authenticated")));
      return;
    }
    if session.Unreadable? {
      threw := true;
      return;
    }
    var payload := session.claims;
    var cfgRes := GetAppConfig(env, payload.app);
    if !cfgRes.ConfigOk? {
      SendJson(res, 500, ErrorBody(Str(cfgRes.error)));
      return;
    }
    var cfg := cfgRes.cfg;

    if NeedsRefresh(payload, now) && Truthy(payload.refreshToken) {
      var request := RefreshRequest(cfg, payload.refreshToken);
      var resp := provider(request);
      sent := Some(request);
      var json := resp.body;
      if Nullish(json) {
        threw := true;
        return;
      }
      if !resp.Ok() {
        SendJson(res, resp.status, ErrorBody(Or(Get(json, "error"), Str("Failed to refresh token"))));
        return;
      }
      payload := MergeRefresh(payload, json, now);
      res.SetHeader("Set-Cookie", SessionCookieHeader(Sealed(payload, now)));
    }
    SendJson(res, 200, TokenView(payload));
  }

  // ---- properties: CORS --------------------------------------------------

  /** An origin listed exactly is echoed back. */
  lemma ExactOriginAllowed(origin: string, allowed: seq<string>)
    requires origin != "" && origin in allowed
    ensures OriginAllowed(Some(origin), allowed)
  {
  }

  /** `*.example.com` lets in every origin ending in `.example.com`, and a bare `*` lets in nothing by itself. */
  lemma WildcardCovers(origin: string, allowed: seq<string>, a: string)
    requires origin != "" && a in allowed && |a| >= 2 && a[..2] == "*." && EndsWith(origin, a[1..])
    ensures OriginAllowed(Some(origin), allowed)
    ensures !WildcardMatch("*", origin)
  {
    assert WildcardMatch(a, origin);
    AnyWildcardIff(allowed, origin);
  }

  /** An absent or empty origin, or one neither listed nor covered, is never echoed back. */
  lemma OriginRefused(origin: Option<string>, allowed: seq<string>)
    requires origin.None? || origin.value == ""
      || (origin.value !in allowed && forall a :: a in allowed ==> !WildcardMatch(a, origin.value))
    ensures "Access-Control-Allow-Origin" !in CorsHeaders(origin, allowed)
  {
    if origin.Some? {
      AnyWildcardIff(allowed, origin.value);
    }
  }

  /** At key `k`, the headers `h` agree with the CORS headers `cors`. */
  predicate AgreesAt(h: map<string, HeaderValue>, cors: map<string, HeaderValue>, k: string) {
    (k in h <==> k in cors) && (k in cors ==> h[k] == cors[k])
  }

  /** The refresh branch adds at most `Content-Type` and `Set-Cookie` to the CORS headers. */
  lemma RefreshKeepsCors(cors: map<string, HeaderValue>, p: Payload, cfg: AppConfig, now: int, provider: ProviderRequest -> ProviderReply, k: string)
    requires k != "Content-Type" && k != "Set-Cookie"
    ensures AgreesAt(RefreshOutcome(cors, p, cfg, now, provider).reply.headers, cors, k)
  {
  }

  /** Once the cookie is read, the handler adds at most `Content-Type` and `Set-Cookie` to the CORS headers. */
  lemma SessionKeepsCors(cors: map<string, HeaderValue>, env: Env, session: SessionCookie, now: int, provider: ProviderRequest -> ProviderReply, k: string)
    requires k != "Content-Type" && k != "Set-Cookie"
    ensures AgreesAt(SessionOutcome(cors, env, session, now, provider).reply.headers, cors, k)
  {
    if session.Session? && ResolveConfig(env, session.claims.app).ConfigOk? {
      RefreshKeepsCors(cors, session.claims, ResolveConfig(env, session.claims.app).cfg, now, provider, k);
    }
  }

  /** Every reply of the handler adds at most `Content-Type` and `Set-Cookie` to the CORS headers. */
  lemma TokenKeepsCors(req: Request, env: Env, nowMs: nat, provider: ProviderRequest -> ProviderReply, k: string)
    requires k != "Content-Type" && k != "Set-Cookie"
    ensures AgreesAt(TokenOutcome(req, env, nowMs, provider).reply.headers, RequestCors(req, env), k)
  {
    if req.httpMethod == "GET" && EnvGet(env, "COOKIE_SECRET") != "" {
      SessionKeepsCors(RequestCors(req, env), env, ReadSession(req.cookies, nowMs / 1000), nowMs / 1000, provider, k);
    }
  }

  /** The four fixed CORS headers, and the allowed-origin header exactly for an allowed origin. */
  lemma CorsHeadersShape(origin: Option<string>, allowed: seq<string>)
    ensures var h := CorsHeaders(origin, allowed);
      && h["Vary"] == Text("Origin")
      && h["Access-Control-Allow-Credentials"] == Text("true")
      && h["Access-Control-Allow-Headers"] == Text("Content-Type")
      && h["Access-Control-Allow-Methods"] == Text("GET, OPTIONS")
      && ("Access-Control-Allow-Origin" in h <==> OriginAllowed(origin, allowed))
      && (OriginAllowed(origin, allowed) ==> h["Access-Control-Allow-Origin"] == Text(origin.value))
      && "Set-Cookie" !in h && "Content-Type" !in h
  {
  }

  /**
   * Every reply, whatever its path (the exceptions included), carries the
   * CORS headers, and the allowed-origin header exactly when the origin is
   * allowed, with that origin.
   */
  lemma CorsOnEveryReply(req: Request, env: Env, nowMs: nat, provider: ProviderRequest -> ProviderReply)
    ensures var h := TokenOutcome(req, env, nowMs, provider).reply.headers;
      && "Vary" in h && h["Vary"] == Text("Origin")
      && "Access-Control-Allow-Credentials" in h && h["Access-Control-Allow-Credentials"] == Text("true")
      && "Access-Control-Allow-Headers" in h && h["Access-Control-Allow-Headers"] == Text("Content-Type")
      && "Access-Control-Allow-Methods" in h && h["Access-Control-Allow-Methods"] == Text("GET, OPTIONS")
      && ("Access-Control-Allow-Origin" in h <==> OriginAllowed(req.origin, AllowedOrigins(env)))
      && (OriginAllowed(req.origin, AllowedOrigins(env)) ==> h["Access-Control-Allow-Origin"] == Text(req.origin.value))
  {
    CorsHeadersShape(req.origin, AllowedOrigins(env));
    TokenKeepsCors(req, env, nowMs, provider, "Vary");
    TokenKeepsCors(req, env, nowMs, provider, "Access-Control-Allow-Credentials");
    TokenKeepsCors(req, env, nowMs, provider, "Access-Control-Allow-Headers");
    TokenKeepsCors(req, env, nowMs, provider, "Access-Control-Allow-Methods");
    TokenKeepsCors(req, env, nowMs, provider, "Access-Control-Allow-Origin");
  }

  /** A preflight is answered with 200 and an empty body before any other check, whatever the cookies or configuration. */
  lemma PreflightShortCircuits(req: Request, env: Env, nowMs: nat, provider: ProviderRequest -> ProviderReply)
    requires req.httpMethod == "OPTIONS"
    ensures TokenOutcome(req, env, nowMs, provider) == Outcome(Reply(200, RequestCors(req, env), NoBody, true), None, false)
  {
  }

  // ---- properties: the gates ---------------------------------------------

  /** 405 for other methods, 500 without `COOKIE_SECRET`, 401 without a session cookie; none of them refreshes or sets a cookie. */
  lemma TokenGates(req: Request, env: Env, nowMs: nat, provider: ProviderRequest -> ProviderReply)
    requires req.httpMethod != "OPTIONS"
    ensures var o := TokenOutcome(req, env, nowMs, provider);
      && (req.httpMethod != "GET" ==>
            o.reply.status == 405 && o.reply.body == JsonBody(ErrorBody(Str("Method not allowed"))))
      && (req.httpMethod == "GET" && EnvGet(env, "COOKIE_SECRET") == "" ==>
            o.reply.status == 500 && o.reply.body == JsonBody(ErrorBody(Str("COOKIE_SECRET missing"))))
      && (req.httpMethod == "GET" && EnvGet(env, "COOKIE_SECRET") != "" && ReadSession(req.cookies, nowMs / 1000).NoSession? ==>
            o.reply.status == 401 && o.reply.body == JsonBody(ErrorBody(Str("Not authenticated"))))
      && (req.httpMethod != "GET" || EnvGet(env, "COOKIE_SECRET") == "" || ReadSession(req.cookies, nowMs / 1000).NoSession? ==>
            && o.sent.None? && !o.threw && "Set-Cookie" !in o.reply.headers
            && "Content-Type" in o.reply.headers && o.reply.headers["Content-Type"] == Text(JsonType))
  {
    CorsHeadersShape(req.origin, AllowedOrigins(env));
    if req.httpMethod == "GET" && EnvGet(env, "COOKIE_SECRET") != "" {
      TokenReachesSession(req, env, nowMs, provider);
    }
  }

  /** A session whose `exp` claim has passed is refused by the decryption step. */
  lemma ExpiredSessionUnreadable(cookies: map<string, CookieValue>, now: int, claims: Payload)
    requires "oauth_token" in cookies && cookies["oauth_token"] == Jwe(claims)
    requires "exp" in claims.others && claims.others["exp"].Num? && claims.others["exp"].n <= now
    ensures ReadSession(cookies, now).Unreadable?
  {
  }

  // ---- properties: refresh -----------------------------------------------

  /** Past the gates, the handler goes on with the session cookie it read. */
  lemma TokenReachesSession(req: Request, env: Env, nowMs: nat, provider: ProviderRequest -> ProviderReply)
    requires req.httpMethod == "GET" && EnvGet(env, "COOKIE_SECRET") != ""
    ensures TokenOutcome(req, env, nowMs, provider)
      == SessionOutcome(RequestCors(req, env), env, ReadSession(req.cookies, nowMs / 1000), nowMs / 1000, provider)
  {
  }

  /**
   * With a readable session of a configured tenant, the provider is
   * contacted exactly when the session expires within a minute and holds a
   * refresh token, and then with that refresh token.
   */
  lemma SessionRefreshIff(cors: map<string, HeaderValue>, env: Env, session: SessionCookie, now: int, provider: ProviderRequest -> ProviderReply)
    ensures var o := SessionOutcome(cors, env, session, now, provider);
      && (o.sent.Some? <==>
            session.Session? && ResolveConfig(env, session.claims.app).ConfigOk?
            && NeedsRefresh(session.claims, now) && Truthy(session.claims.refreshToken))
      && (o.sent.Some? ==> o.sent.value == RefreshRequest(ResolveConfig(env, session.claims.app).cfg, session.claims.refreshToken))
  {
  }

  /**
   * The provider is contacted exactly when a GET with `COOKIE_SECRET` set
   * carries a readable session of a configured tenant that expires within
   * a minute and holds a refresh token; the request carries that token.
   */
  lemma RefreshIff(req: Request, env: Env, nowMs: nat, provider: ProviderRequest -> ProviderReply)
    ensures var o := TokenOutcome(req, env, nowMs, provider);
      var s := ReadSession(req.cookies, nowMs / 1000);
      && (o.sent.Some? <==>
            req.httpMethod == "GET" && EnvGet(env, "COOKIE_SECRET") != "" && s.Session?
            && ResolveConfig(env, s.claims.app).ConfigOk?
            && NeedsRefresh(s.claims, nowMs / 1000) && Truthy(s.claims.refreshToken))
      && (o.sent.Some? ==> o.sent.value == RefreshRequest(ResolveConfig(env, s.claims.app).cfg, s.claims.refreshToken))
  {
    if req.httpMethod == "GET" && EnvGet(env, "COOKIE_SECRET") != "" {
      TokenReachesSession(req, env, nowMs, provider);
      SessionRefreshIff(RequestCors(req, env), env, ReadSession(req.cookies, nowMs / 1000), nowMs / 1000, provider);
    }
  }

  /** A complete configuration always has a client secret. */
  lemma ConfiguredSecret(env: Env, appLabel: string)
    requires ResolveConfig(env, appLabel).ConfigOk?
    ensures ResolveConfig(env, appLabel).cfg.clientSecret != ""
  {
    ConfigOkIff(env, appLabel);
    FieldIsEnv(env, appLabel, "OAUTH_CLIENT_SECRET");
    assert "OAUTH_CLIENT_SECRET" in RequiredKeys;
  }

  /**
   * The refresh form has the grant type, the client, the redirect URI and
   * the refresh token; under a complete configuration (which always has a
   * secret) it also has the client secret, so the form never drops it.
   */
  lemma RefreshForm(env: Env, appLabel: string, refreshToken: Value)
    requires ResolveConfig(env, appLabel).ConfigOk? && Truthy(refreshToken)
    ensures var cfg := ResolveConfig(env, appLabel).cfg;
      RefreshRequest(cfg, refreshToken).fields == [
        ("grant_type", Str("refresh_token")),
        ("client_id", Str(cfg.clientId)),
        ("redirect_uri", Str(cfg.redirectUri)),
        ("refresh_token", refreshToken),
        ("client_secret", Str(cfg.clientSecret))]
  {
    ConfiguredSecret(env, appLabel);
    var cfg := ResolveConfig(env, appLabel).cfg;
    FormOfPresent(cfg, refreshToken);
  }

  /** With a secret and a refresh token, the form keeps all five entries. */
  lemma FormOfPresent(cfg: AppConfig, refreshToken: Value)
    requires cfg.clientSecret != "" && Truthy(refreshToken)
    ensures RefreshRequest(cfg, refreshToken).fields == [
        ("grant_type", Str("refresh_token")),
        ("client_id", Str(cfg.clientId)),
        ("redirect_uri", Str(cfg.redirectUri)),
        ("refresh_token", refreshToken),
        ("client_secret", Str(cfg.clientSecret))]
  {
    var entries := [
        ("grant_type", Str("refresh_token")),
        ("client_id", Str(cfg.clientId)),
        ("redirect_uri", Str(cfg.redirectUri)),
        ("refresh_token", refreshToken),
        ("client_secret", Str(cfg.clientSecret))];
    FormKeepsPresent(entries);
  }

  /** A form of present values is kept whole. */
  lemma {:induction false} FormKeepsPresent(entries: seq<(string, Value)>)
    requires forall i :: 0 <= i < |entries| ==> !Nullish(entries[i].1)
    ensures FormEncode(entries) == entries
  {
    if entries != [] {
      FormKeepsPresent(entries[1..]);
      assert [entries[0]] + entries[1..] == entries;
    }
  }

  /** What the refresh branch does with the provider's answer. */
  lemma RefreshAnswer(cors: map<string, HeaderValue>, p: Payload, cfg: AppConfig, now: int, provider: ProviderRequest -> ProviderReply)
    requires "Set-Cookie" !in cors
    ensures var o := RefreshOutcome(cors, p, cfg, now, provider);
      var resp := provider(RefreshRequest(cfg, p.refreshToken));
      && o.sent == Some(RefreshRequest(cfg, p.refreshToken))
      && (o.threw <==> Nullish(resp.body))
      && (!Nullish(resp.body) && !resp.Ok() ==>
            && o.reply.status == resp.status
            && o.reply.body == JsonBody(ErrorBody(Or(Get(resp.body, "error"), Str("Failed to refresh token"))))
            && "Set-Cookie" !in o.reply.headers)
      && (!Nullish(resp.body) && resp.Ok() ==>
            var q := MergeRefresh(p, resp.body, now);
            && o.reply.status == 200 && o.reply.body == JsonBody(TokenView(q))
            && "Set-Cookie" in o.reply.headers
            && o.reply.headers["Set-Cookie"] == SetCookies([RelayCookie("oauth_token", Jwe(Sealed(q, now)), SessionLifetime, "lax")]))
  {
  }

  /**
   * A refused refresh passes on the provider's status and error and keeps
   * the old cookie; an accepted one re-seals the merged session for 30
   * more days and returns its view.
   */
  lemma RefreshAnswered(req: Request, env: Env, nowMs: nat, provider: ProviderRequest -> ProviderReply)
    requires TokenOutcome(req, env, nowMs, provider).sent.Some?
    ensures var o := TokenOutcome(req, env, nowMs, provider);
      var resp := provider(o.sent.value);
      var now := nowMs / 1000;
      && ReadSession(req.cookies, now).Session?
      && var p := ReadSession(req.cookies, now).claims;
      && (o.threw <==> Nullish(resp.body))
      && (!Nullish(resp.body) && !resp.Ok() ==>
            && o.reply.status == resp.status
            && o.reply.body == JsonBody(ErrorBody(Or(Get(resp.body, "error"), Str("Failed to refresh token"))))
            && "Set-Cookie" !in o.reply.headers)
      && (!Nullish(resp.body) && resp.Ok() ==>
            var q := MergeRefresh(p, resp.body, now);
            && o.reply.status == 200 && o.reply.body == JsonBody(TokenView(q))
            && "Set-Cookie" in o.reply.headers
            && o.reply.headers["Set-Cookie"] == SetCookies([RelayCookie("oauth_token", Jwe(Sealed(q, now)), SessionLifetime, "lax")]))
  {
    RefreshIff(req, env, nowMs, provider);
    TokenReachesSession(req, env, nowMs, provider);
    CorsHeadersShape(req.origin, AllowedOrigins(env));
    var now := nowMs / 1000;
    var p := ReadSession(req.cookies, now).claims;
    RefreshAnswer(RequestCors(req, env), p, ResolveConfig(env, p.app).cfg, now, provider);
  }

  /** Without a refresh, a readable session of a configured tenant is returned as it is and no cookie is set. */
  lemma ServedWithoutRefresh(req: Request, env: Env, nowMs: nat, provider: ProviderRequest -> ProviderReply)
    requires req.httpMethod == "GET" && EnvGet(env, "COOKIE_SECRET") != ""
    requires var s := ReadSession(req.cookies, nowMs / 1000);
      s.Session? && ResolveConfig(env, s.claims.app).ConfigOk?
      && !(NeedsRefresh(s.claims, nowMs / 1000) && Truthy(s.claims.refreshToken))
    ensures TokenOutcome(req, env, nowMs, provider)
      == Outcome(JsonSent(RequestCors(req, env), 200, TokenView(ReadSession(req.cookies, nowMs / 1000).claims)), None, false)
  {
    TokenReachesSession(req, env, nowMs, provider);
  }

  // ---- properties: the merge ---------------------------------------------

  /** A present refresh token is never lost; a rotated one replaces it. */
  lemma MergeKeepsRefreshToken(p: Payload, json: Value, now: int)
    ensures Truthy(p.refreshToken) ==> Truthy(MergeRefresh(p, json, now).refreshToken)
    ensures Truthy(Get(json, "refresh_token")) ==> MergeRefresh(p, json, now).refreshToken == Get(json, "refresh_token")
    ensures !Truthy(Get(json, "refresh_token")) ==> MergeRefresh(p, json, now).refreshToken == p.refreshToken
  {
  }

  /** Each mergeable field takes the reply's value when that is truthy and keeps the session's otherwise; the token's lifetime is counted from the refresh. */
  lemma MergeTakesNewOrOld(p: Payload, json: Value, now: int)
    ensures var q := MergeRefresh(p, json, now);
      && q.accessToken == (if Truthy(Get(json, "access_token")) then Get(json, "access_token") else p.accessToken)
      && q.tokenType == (if Truthy(Get(json, "token_type")) then Get(json, "token_type") else p.tokenType)
      && q.scope == (if Truthy(Get(json, "scope")) then Get(json, "scope") else p.scope)
      && q.location == (if Truthy(Get(json, "location")) then Get(json, "location") else p.location)
      && q.organizationUid == (if Truthy(Get(json, "organization_uid")) then Get(json, "organization_uid") else p.organizationUid)
      && q.obtainedAt == now && q.expiresAt - q.obtainedAt == Lifetime(json)
  {
  }

  /** No field that had a value loses it, and the tenant and the other members stay. */
  lemma MergeKeepsValues(p: Payload, json: Value, now: int)
    ensures var q := MergeRefresh(p, json, now);
      && q.app == p.app && q.others == p.others
      && (Truthy(p.accessToken) ==> Truthy(q.accessToken))
      && (Truthy(p.tokenType) ==> Truthy(q.tokenType))
      && (Truthy(p.scope) ==> Truthy(q.scope))
      && (Truthy(p.location) ==> Truthy(q.location))
      && (Truthy(p.organizationUid) ==> Truthy(q.organizationUid))
  {
  }

  /** A reply with nothing in it only restarts the clock, with the default lifetime of an hour. */
  lemma MergeEmptyReply(p: Payload, now: int)
    ensures MergeRefresh(p, Obj(map[]), now) == p.(expiresAt := now + DefaultLifetime, obtainedAt := now)
  {
  }

  /** Merging the same reply twice at the same time changes nothing more. */
  lemma MergeIdempotent(p: Payload, json: Value, now: int)
    ensures MergeRefresh(MergeRefresh(p, json, now), json, now) == MergeRefresh(p, json, now)
  {
  }

  /** After a refresh whose token lives at least a minute, the session needs no refresh at that moment. */
  lemma RefreshedIsFresh(p: Payload, json: Value, now: int)
    requires Lifetime(json) >= 60
    ensures !NeedsRefresh(MergeRefresh(p, json, now), now)
  {
  }

  // ---- properties: the view ----------------------------------------------

  /** The view never shows the refresh token: sessions that differ only in it, or in their other members, look the same. */
  lemma ViewHidesSecrets(p: Payload, refreshToken: Value, others: map<string, Value>)
    ensures TokenView(p.(refreshToken := refreshToken, others := others)) == TokenView(p)
    ensures "refreshToken" !in TokenView(p).fields
  {
  }

  /** The view's defaults: token type `Bearer`, and `null` for a missing scope, location or organization. */
  lemma ViewDefaults(p: Payload)
    ensures var v := TokenView(p).fields;
      && v["app"] == Str(p.app) && v["expiresAt"] == Num(p.expiresAt) && v["accessToken"] == p.accessToken
      && Truthy(v["tokenType"])
      && (!Truthy(p.tokenType) ==> v["tokenType"] == Str("Bearer"))
      && (!Truthy(p.scope) ==> v["scope"] == Null)
      && (!Truthy(p.location) ==> v["location"] == Null)
      && (!Truthy(p.organizationUid) ==> v["organizationUid"] == Null)
      && (Truthy(p.scope) ==> v["scope"] == p.scope)
  {
  }
}
