/**
 * The three handlers together: what the browser carries from
 * `/auth/start` to `/auth/callback`, and from there to `/auth/token`.
 */
module Flow {
  import opened Wrappers
  import opened Js
  import opened Config
  import opened Session
  import opened Pkce
  import opened Http
  import opened Urls
  import opened Start
  import opened Callback
  import opened Token

  /**
   * When the browser comes back from the provider with the state of the
   * authorize URL and a code, and with the `pre_auth` cookie of the same
   * redirect, the callback exchanges the code at the same tenant with a
   * verifier whose S256 hash was the challenge, and with the redirect URI
   * of the authorize request (section 4.1.3 of RFC 6749, section 4.6 of
   * RFC 7636).
   */
  lemma PkceBinding(
      startReq: Request, env: Env, random: VerifierBytes, uuid: string, startMs: int, sha256: string -> Digest,
      cbReq: Request, cbMs: nat, provider: ProviderRequest -> ProviderReply)
    requires StartReply(startReq, env, random, uuid, startMs, sha256).status == 302
    requires cbReq.httpMethod == "GET" && EnvGet(env, "COOKIE_SECRET") != ""
    requires "pre_auth" in cbReq.cookies
      && Some(cbReq.cookies["pre_auth"]) == FirstCookie(StartReply(startReq, env, random, uuid, startMs, sha256))
    requires Present(QueryGet(cbReq, "code")) && Present(QueryGet(cbReq, "state"))
      && QueryGet(cbReq, "state") == Lookup(RedirectQuery(StartReply(startReq, env, random, uuid, startMs, sha256)), "state")
    ensures var cfg := ResolveConfig(env, ResolveAppLabel(env, QueryGet(startReq, "app"))).cfg;
      var q := RedirectQuery(StartReply(startReq, env, random, uuid, startMs, sha256));
      var o := CallbackOutcome(cbReq, env, cbMs, provider);
      && Lookup(q, "redirect_uri") == Some(cfg.redirectUri)
      && exists verifier: string ::
           && o.sent == Some(ExchangeRequest(cfg, QueryGet(cbReq, "code").value, Str(verifier)))
           && Lookup(q, "code_challenge") == Some(Sha256B64u(sha256, verifier))
  {
    var r := StartReply(startReq, env, random, uuid, startMs, sha256);
    var app := ResolveAppLabel(env, QueryGet(startReq, "app"));
    StartRedirectsIff(startReq, env, random, uuid, startMs, sha256);
    StartBindsPreAuth(startReq, env, random, uuid, startMs, sha256);
    StartRedirectTarget(startReq, env, random, uuid, startMs, sha256);
    var rec := r.headers["Set-Cookie"].cookies[0].value.json;
    assert ReadPreAuth(cbReq.cookies) == Some(rec);
    var verifier := Get(rec, "codeVerifier").s;
    StateMatchExchanges(cbReq, env, cbMs, provider);
  }

  /**
   * A session cookie just issued by the callback, presented to the token
   * endpoint while the access token has a minute or more left (and within
   * the cookie's 30 days), is served as it is, without a refresh, and no
   * cookie is set; its access token is the one the provider issued.
   */
  lemma FreshSessionServed(
      cbReq: Request, env: Env, cbMs: nat, provider: ProviderRequest -> ProviderReply,
      claims: Payload, tokReq: Request, tokMs: nat, refresher: ProviderRequest -> ProviderReply)
    requires IssuedSession(CallbackOutcome(cbReq, env, cbMs, provider).reply) == Some(claims)
    requires tokReq.httpMethod == "GET" && EnvGet(env, "COOKIE_SECRET") != ""
    requires "oauth_token" in tokReq.cookies && tokReq.cookies["oauth_token"] == Jwe(claims)
    requires tokMs / 1000 + 60 <= claims.expiresAt && tokMs / 1000 < claims.obtainedAt + SessionLifetime
    ensures TokenOutcome(tokReq, env, tokMs, refresher) == Outcome(JsonSent(RequestCors(tokReq, env), 200, TokenView(claims)), None, false)
    ensures CallbackOutcome(cbReq, env, cbMs, provider).sent.Some?
      && claims.accessToken == Get(provider(CallbackOutcome(cbReq, env, cbMs, provider).sent.value).body, "access_token")
  {
    IssuedSessionClaims(cbReq, env, cbMs, provider);
    assert ReadSession(tokReq.cookies, tokMs / 1000) == Session(claims);
    ServedWithoutRefresh(tokReq, env, tokMs, refresher);
  }
}
