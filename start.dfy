/**
 * `/auth/start` (functions/auth/start.js): picks the tenant, creates the
 * PKCE verifier and the state, remembers them in the short-lived
 * `pre_auth` cookie, and redirects the browser to the provider's authorize
 * endpoint.
 */
module Start {
  import opened Wrappers
  import opened Js
  import opened Config
  import opened Pkce
  import opened Base64
  import opened Http
  import opened Urls

  /** `crypto.randomBytes(64)` */
  type VerifierBytes = b: seq<byte> | |b| == 64 witness seq(64, _ => 0)

  /** Five minutes, the `maxAge` of the `pre_auth` cookie. */
  const PreAuthMaxAge: int := 5 * 60

  /** The provider's authorize endpoint for this tenant, without query. */
  function AuthorizeBase(cfg: AppConfig): string {
    "https://" + cfg.region + "-app.contentstack.com/apps/" + cfg.appUid + "/authorize"
  }

  /** The query of the authorize URL, pair by pair in the order the handler sets it. */
  function AuthorizeParams(cfg: AppConfig, state: string, challenge: string): seq<Param> {
    [("response_type", "code"), ("client_id", cfg.clientId), ("redirect_uri", cfg.redirectUri)]
    + (if cfg.scope != "" then [("scope", cfg.scope)] else [])
    + [("state", state), ("code_challenge", challenge), ("code_challenge_method", "S256")]
  }

  /** The object stored, as JSON text, in the `pre_auth` cookie. */
  function PreAuthRecord(state: string, verifier: string, app: string, t: int): Value {
    Obj(map["state" := Str(state), "codeVerifier" := Str(verifier), "app" := Str(app), "t" := Num(t)])
  }

  /** The `pre_auth` cookie; `SameSite=None` so that it survives the cross-site return from the provider. */
  function PreAuthCookie(state: string, verifier: string, app: string, t: int): Cookie {
    RelayCookie("pre_auth", JsonText(PreAuthRecord(state, verifier, app, t)), PreAuthMaxAge, "none")
  }

  /**
   * The response of the handler. `random`, `uuid` and `nowMs` are what
   * `crypto.randomBytes(64)`, `crypto.randomUUID()` and `Date.now()` return;
   * `sha256` is the hash.
   */
  function StartReply(req: Request, env: Env, random: VerifierBytes, uuid: string, nowMs: int, sha256: string -> Digest): Reply {
    if req.httpMethod != "GET" then
      JsonReply(405, ErrorBody(Str("Method not allowed")))
    else
      var app := ResolveAppLabel(env, QueryGet(req, "app"));
      if app == "" then
        JsonReply(400, Obj(map["error" := Str("Missing or invalid ?app="), "allowed" := StrArray(ListAppLabels(env))]))
      else
        match ResolveConfig(env, app)
        case ConfigErr(e) => JsonReply(500, ErrorBody(Str(e)))
        case ConfigOk(cfg) =>
          var verifier := B64u(random);
          var challenge := Sha256B64u(sha256, verifier);
          Reply(302,
            map["Set-Cookie" := SetCookies([PreAuthCookie(uuid, verifier, app, nowMs)]),
                "Location" := Location(AuthorizeBase(cfg), AuthorizeParams(cfg, uuid, challenge))],
            NoBody, true)
  }

  /** The handler, step by step on `res`. */
  method HandleStart(req: Request, env: Env, random: VerifierBytes, uuid: string, nowMs: int, sha256: string -> Digest, res: Response)
    requires res.Snapshot() == Initial
    modifies res
    ensures res.Snapshot() == StartReply(req, env, random, uuid, nowMs, sha256)
  {
    if req.httpMethod != "GET" {
      res.SetStatus(405);
      res.Json(ErrorBody(Str("Method not allowed")));
      return;
    }
    var requested := QueryGet(req, "app");
    var app := ResolveAppLabel(env, requested);
    if app == "" {
      res.SetStatus(400);
      res.Json(Obj(map["error" := Str("Missing or invalid ?app="), "allowed" := StrArray(ListAppLabels(env))]));
      return;
    }
    var r := GetAppConfig(env, app);
    if !r.ConfigOk? {
      res.SetStatus(500);
      res.Json(ErrorBody(Str(r.error)));
      return;
    }
    var cfg := r.cfg;

    var codeVerifier := B64u(random);
    var codeChallenge := Sha256B64u(sha256, codeVerifier);
    var state := uuid;

    res.SetHeader("Set-Cookie", SetCookies([PreAuthCookie(state, codeVerifier, app, nowMs)]));

    var authUrl := BuildAuthorizeUrl(cfg, state, codeChallenge);
    res.Redirect(authUrl.base, authUrl.params);
  }

  /** `new URL(...)` and the `searchParams.set` calls that build the authorize URL. */
  method BuildAuthorizeUrl(cfg: AppConfig, state: string, challenge: string) returns (authUrl: Url)
    ensures fresh(authUrl)
    ensures authUrl.base == AuthorizeBase(cfg) && authUrl.params == AuthorizeParams(cfg, state, challenge)
  {
    authUrl := new Url(AuthorizeBase(cfg));
    SetNew(authUrl.params, "response_type", "code");
    authUrl.Set("response_type", "code");
    SetNew(authUrl.params, "client_id", cfg.clientId);
    authUrl.Set("client_id", cfg.clientId);
    SetNew(authUrl.params, "redirect_uri", cfg.redirectUri);
    authUrl.Set("redirect_uri", cfg.redirectUri);
    ghost var head := authUrl.params;
    if cfg.scope != "" {
      SetNew(authUrl.params, "scope", cfg.scope);
      authUrl.Set("scope", cfg.scope);
    }
    assert authUrl.params == head + (if cfg.scope != "" then [("scope", cfg.scope)] else []);
    SetStateAndChallenge(authUrl, state, challenge);
  }

  /** The last three `set` calls: the state and the PKCE challenge, on a query that has none of them yet. */
  method SetStateAndChallenge(authUrl: Url, state: string, challenge: string)
    requires forall i :: 0 <= i < |authUrl.params| ==> authUrl.params[i].0 in {"response_type", "client_id", "redirect_uri", "scope"}
    modifies authUrl
    ensures authUrl.params == old(authUrl.params) + [("state", state), ("code_challenge", challenge), ("code_challenge_method", "S256")]
  {
    SetNew(authUrl.params, "state", state);
    authUrl.Set("state", state);
    SetNew(authUrl.params, "code_challenge", challenge);
    authUrl.Set("code_challenge", challenge);
    SetNew(authUrl.params, "code_challenge_method", "S256");
    authUrl.Set("code_challenge_method", "S256");
  }

  // ---- properties --------------------------------------------------------

  /**
   * Only a GET with a resolvable, fully configured tenant is redirected;
   * every other request gets a JSON error and neither cookie nor redirect.
   */
  lemma StartRedirectsIff(req: Request, env: Env, random: VerifierBytes, uuid: string, nowMs: int, sha256: string -> Digest)
    ensures var r := StartReply(req, env, random, uuid, nowMs, sha256);
      && r.finished
      && (r.status == 302 <==>
            req.httpMethod == "GET"
            && ResolveAppLabel(env, QueryGet(req, "app")) != ""
            && ResolveConfig(env, ResolveAppLabel(env, QueryGet(req, "app"))).ConfigOk?)
      && (r.status != 302 ==>
            "Set-Cookie" !in r.headers && "Location" !in r.headers && r.body.JsonBody?
            && r.headers["Content-Type"] == Text(JsonType))
  {
    var app := ResolveAppLabel(env, QueryGet(req, "app"));
    if req.httpMethod == "GET" && app != "" && ResolveConfig(env, app).ConfigOk? {
      var cfg := ResolveConfig(env, app).cfg;
      var verifier := B64u(random);
      assert StartReply(req, env, random, uuid, nowMs, sha256) == Reply(302,
        map["Set-Cookie" := SetCookies([PreAuthCookie(uuid, verifier, app, nowMs)]),
            "Location" := Location(AuthorizeBase(cfg), AuthorizeParams(cfg, uuid, Sha256B64u(sha256, verifier)))],
        NoBody, true);
    }
  }

  /** Any method other than GET is refused with 405, whatever the query and the configuration. */
  lemma StartRejectsOtherMethods(req: Request, env: Env, random: VerifierBytes, uuid: string, nowMs: int, sha256: string -> Digest)
    requires req.httpMethod != "GET"
    ensures var r := StartReply(req, env, random, uuid, nowMs, sha256);
      r.status == 405 && Get(r.body.json, "error") == Str("Method not allowed")
  {
  }

  /**
   * A request whose tenant does not resolve (none named among several, or
   * none configured at all) is refused with 400, told the configured
   * labels, and given no cookie.
   */
  lemma StartNeedsExplicitApp(req: Request, env: Env, random: VerifierBytes, uuid: string, nowMs: int, sha256: string -> Digest)
    requires req.httpMethod == "GET"
    requires ResolveAppLabel(env, QueryGet(req, "app")) == ""
    ensures var r := StartReply(req, env, random, uuid, nowMs, sha256);
      && r.status == 400
      && Get(r.body.json, "error") == Str("Missing or invalid ?app=")
      && Get(r.body.json, "allowed") == StrArray(ParseLabels(env))
      && "Set-Cookie" !in r.headers
  {
  }

  /** A tenant with incomplete configuration gets 500 with the resolver's message naming what is missing. */
  lemma StartReportsMissingConfig(req: Request, env: Env, random: VerifierBytes, uuid: string, nowMs: int, sha256: string -> Digest)
    requires req.httpMethod == "GET"
    requires var app := ResolveAppLabel(env, QueryGet(req, "app"));
      app != "" && MissingKeys(env, app) != []
    ensures var app := ResolveAppLabel(env, QueryGet(req, "app"));
      var r := StartReply(req, env, random, uuid, nowMs, sha256);
      r.status == 500 && r.body == JsonBody(ErrorBody(Str(MissingMessage(app, MissingKeys(env, app)))))
  {
  }

  /**
   * The authorize query carries what sections 4.1.1 of RFC 6749 and 4.3 of
   * RFC 7636 ask for: response type `code`, the client, the redirect URI,
   * the state and the S256 challenge; the scope only when configured.
   */
  lemma AuthorizeQuery(cfg: AppConfig, state: string, challenge: string)
    ensures var q := AuthorizeParams(cfg, state, challenge);
      && Lookup(q, "response_type") == Some("code")
      && Lookup(q, "client_id") == Some(cfg.clientId)
      && Lookup(q, "redirect_uri") == Some(cfg.redirectUri)
      && Lookup(q, "state") == Some(state)
      && Lookup(q, "code_challenge") == Some(challenge)
      && Lookup(q, "code_challenge_method") == Some("S256")
      && (Lookup(q, "scope").Some? <==> cfg.scope != "")
      && (cfg.scope != "" ==> Lookup(q, "scope") == Some(cfg.scope))
      && |q| == (if cfg.scope != "" then 7 else 6)
  {
    var q := AuthorizeParams(cfg, state, challenge);
    var k := if cfg.scope != "" then 1 else 0;
    LookupAt(q, "response_type", 0);
    LookupAt(q, "client_id", 1);
    LookupAt(q, "redirect_uri", 2);
    if cfg.scope != "" {
      LookupAt(q, "scope", 3);
    } else {
      LookupAbsent(q, "scope");
    }
    LookupAt(q, "state", 3 + k);
    LookupAt(q, "code_challenge", 4 + k);
    LookupAt(q, "code_challenge_method", 5 + k);
  }

  /** A redirect comes only from a configured tenant, with the cookie and the URL built from that tenant's configuration. */
  lemma StartRedirectReply(req: Request, env: Env, random: VerifierBytes, uuid: string, nowMs: int, sha256: string -> Digest)
    requires StartReply(req, env, random, uuid, nowMs, sha256).status == 302
    ensures var app := ResolveAppLabel(env, QueryGet(req, "app"));
      && req.httpMethod == "GET" && app != "" && ResolveConfig(env, app).ConfigOk?
      && var cfg := ResolveConfig(env, app).cfg;
      && var verifier := B64u(random);
      StartReply(req, env, random, uuid, nowMs, sha256) == Reply(302,
        map["Set-Cookie" := SetCookies([PreAuthCookie(uuid, verifier, app, nowMs)]),
            "Location" := Location(AuthorizeBase(cfg), AuthorizeParams(cfg, uuid, Sha256B64u(sha256, verifier)))],
        NoBody, true)
  {
  }

  /** The record of a `pre_auth` cookie names the tenant `app` and matches the authorize query `q`. */
  predicate RecordMatches(rec: Value, q: seq<Param>, app: string, sha256: string -> Digest) {
    && Get(rec, "app") == Str(app)
    && Get(rec, "state").Str? && Lookup(q, "state") == Some(Get(rec, "state").s)
    && Get(rec, "codeVerifier").Str?
    && var verifier := Get(rec, "codeVerifier").s;
    && Lookup(q, "code_challenge") == Some(Sha256B64u(sha256, verifier))
    && Lookup(q, "code_challenge_method") == Some("S256")
    && |verifier| == 86
    && (forall i :: 0 <= i < |verifier| ==> IsUrlSafe(verifier[i]))
  }

  /**
   * What the redirect promises the callback: exactly one cookie,
   * `pre_auth`, living five minutes, HTTP-only and Secure, whose record
   * holds the tenant `app`, the same state as the authorize URL, and the
   * verifier whose S256 hash is the URL's challenge; the verifier has 86
   * unreserved characters.
   */
  predicate BindsPreAuth(r: Reply, app: string, sha256: string -> Digest) {
    && "Set-Cookie" in r.headers && r.headers["Set-Cookie"].SetCookies? && |r.headers["Set-Cookie"].cookies| == 1
    && var c := r.headers["Set-Cookie"].cookies[0];
    && c.name == "pre_auth" && c.maxAge == 300 && c.httpOnly && c.secure && c.sameSite == "none" && c.path == "/"
    && c.value.JsonText?
    && "Location" in r.headers && r.headers["Location"].Location?
    && RecordMatches(c.value.json, r.headers["Location"].query, app, sha256)
  }

  /** The record the handler stores matches the query it builds. */
  lemma RecordMatchesQuery(cfg: AppConfig, app: string, verifier: string, uuid: string, nowMs: int, sha256: string -> Digest)
    requires |verifier| == 86 && forall i :: 0 <= i < |verifier| ==> IsUrlSafe(verifier[i])
    ensures RecordMatches(PreAuthRecord(uuid, verifier, app, nowMs), AuthorizeParams(cfg, uuid, Sha256B64u(sha256, verifier)), app, sha256)
  {
    AuthorizeQuery(cfg, uuid, Sha256B64u(sha256, verifier));
    var rec := PreAuthRecord(uuid, verifier, app, nowMs);
    assert Get(rec, "state") == Str(uuid) && Get(rec, "codeVerifier") == Str(verifier) && Get(rec, "app") == Str(app);
  }

  /** The redirect built from a configuration binds its `pre_auth` cookie. */
  lemma RedirectBinds(cfg: AppConfig, app: string, random: VerifierBytes, uuid: string, nowMs: int, sha256: string -> Digest)
    ensures var verifier := B64u(random);
      BindsPreAuth(Reply(302,
        map["Set-Cookie" := SetCookies([PreAuthCookie(uuid, verifier, app, nowMs)]),
            "Location" := Location(AuthorizeBase(cfg), AuthorizeParams(cfg, uuid, Sha256B64u(sha256, verifier)))],
        NoBody, true), app, sha256)
  {
    VerifierLength(random);
    RecordMatchesQuery(cfg, app, B64u(random), uuid, nowMs, sha256);
  }

  /** Every redirect of the handler binds its `pre_auth` cookie to a configured tenant. */
  lemma StartBindsPreAuth(req: Request, env: Env, random: VerifierBytes, uuid: string, nowMs: int, sha256: string -> Digest)
    requires StartReply(req, env, random, uuid, nowMs, sha256).status == 302
    ensures var app := ResolveAppLabel(env, QueryGet(req, "app"));
      && app in ParseLabels(env)
      && BindsPreAuth(StartReply(req, env, random, uuid, nowMs, sha256), app, sha256)
  {
    StartRedirectReply(req, env, random, uuid, nowMs, sha256);
    var app := ResolveAppLabel(env, QueryGet(req, "app"));
    RedirectBinds(ResolveConfig(env, app).cfg, app, random, uuid, nowMs, sha256);
  }

  /** The redirect sends the browser to the tenant's authorize endpoint with the tenant's client and redirect URI. */
  lemma StartRedirectTarget(req: Request, env: Env, random: VerifierBytes, uuid: string, nowMs: int, sha256: string -> Digest)
    requires StartReply(req, env, random, uuid, nowMs, sha256).status == 302
    ensures var cfg := ResolveConfig(env, ResolveAppLabel(env, QueryGet(req, "app"))).cfg;
      var q := RedirectQuery(StartReply(req, env, random, uuid, nowMs, sha256));
      && Lookup(q, "client_id") == Some(cfg.clientId)
      && Lookup(q, "redirect_uri") == Some(cfg.redirectUri)
      && Lookup(q, "state") == Some(uuid)
  {
    StartRedirectReply(req, env, random, uuid, nowMs, sha256);
    var cfg := ResolveConfig(env, ResolveAppLabel(env, QueryGet(req, "app"))).cfg;
    AuthorizeQuery(cfg, uuid, Sha256B64u(sha256, B64u(random)));
  }
}
