# OAuth2 authorization-code relay with PKCE, in Dafny

This project models a small multi-tenant relay for the OAuth2
Authorization-Code flow with PKCE (section 4.1 of RFC 6749, RFC 7636),
written as three HTTP handlers over a shared configuration resolver, and
proves properties of that model.

- `functions/_shared/config.js` (module `Config`, with `Strings`) lists the
  tenant labels from `APP_LABELS`. It turns a label into an environment-key
  prefix, picks the tenant of a request, and builds the tenant's
  configuration bundle. The bundle fails closed and names every missing
  variable.
- `functions/auth/start.js` (modules `Start`, `Pkce`, `Base64`, `Urls`)
  creates the PKCE verifier and its S256 challenge. It stores the state and
  the verifier in a short-lived `pre_auth` cookie, and redirects to the
  tenant's authorize endpoint.
- `functions/auth/callback.js` (module `Callback`) checks the returned
  state against the cookie and exchanges the code and the verifier for
  tokens. It stores the session in the encrypted `oauth_token` cookie.
- `functions/auth/token.js` (module `Token`) answers CORS, reads the
  session, and refreshes it within a minute of expiry (section 6 of RFC
  6749). It returns a view of the session that never shows the refresh
  token.

Supporting modules:

- `Js` models JavaScript values, truthiness and `||`.
- `Session` holds the session payload and its sealing with `iat`/`exp`.
- `Http` holds requests and replies, plus the Express response object as
  the class `Http.Response`.
- `Flow` holds properties that span two handlers.

How the model is built:

- Each handler is a method that changes an `Http.Response` step by step,
  as the source does. Its postcondition equals a pure function of the
  inputs: `StartReply`, `CallbackOutcome` or `TokenOutcome`. The lemmas are
  stated about those functions.
- The same pattern covers two other pieces of mutation:
  - `GetAppConfig` builds its missing list in a loop, specified by
    `ResolveConfig`.
  - `BuildAuthorizeUrl` calls `searchParams.set` in sequence, specified by
    `AuthorizeParams` via `Urls.SetParam`.
- An uncaught exception is an outcome with `threw` set. Its cases are:
  - `JSON.parse` of a `pre_auth` cookie that is not JSON;
  - `toUpperCase` of a non-string `app`;
  - a property read on a `null` provider body;
  - `jwtDecrypt` of an unreadable or expired session.

`new URL(...)` of the authorize endpoint (functions/auth/start.js:36) is
not among them; see `Start.AuthorizeBase` under "## Left out".

These become parameters:

- the environment, as a map;
- the clock `Date.now()`, in milliseconds;
- the 64 random bytes and the UUID;
- the SHA-256 function;
- the provider, as a function from the request sent to its status and JSON
  body.

Cookies carry abstract values rather than serialised text:

- JSON text;
- an encrypted session, with its claims;
- the empty clearing value.

Two behaviours of the code worth knowing:

- The `pre_auth` cookie is stored as plain JSON, neither signed nor
  encrypted.
- The callback takes the tenant from `preAuth.app` without checking it
  against `APP_LABELS`. Only `getAppConfig` must succeed for it.

The refresh branch `client_secret: cfg.OAUTH_CLIENT_SECRET || undefined`
(functions/auth/token.js:67) never drops the secret. The configuration
that reaches it always has one, as `Token.ConfiguredSecret` and
`Token.RefreshForm` show.

## Model

| member | source | states |
|---|---|---|
| Config.EnvGet | functions/_shared/config.js:5 | definition (`process.env[k]`, "" when unset); properties in Config.FieldIsEnv |
| Config.ParseLabels | functions/_shared/config.js:4-7 | every configured label is non-empty, has no surrounding whitespace and no comma |
| Config.ListAppLabels | functions/_shared/config.js:13-15 | definition (the parsed labels); properties in Config.ParseLabels and Start.StartNeedsExplicitApp |
| Strings.ParseListEntries | functions/_shared/config.js:6 | split/trim/filter yields only non-empty, trimmed, comma-free entries |
| Strings.ParseListConcat | functions/_shared/config.js:6 | the entries of `a,b` are the entries of `a` followed by those of `b`: input order is kept |
| Strings.ParseListJoin | functions/_shared/config.js:6 | joining valid entries with commas and parsing gives the same list back |
| Strings.ParseListPiece | functions/_shared/config.js:6 | a comma-free piece gives its trimmed self, or nothing when blank |
| Strings.Trim | functions/_shared/config.js:6 | the result is trimmed, is the slice between the leading and trailing whitespace runs, and a trimmed input is unchanged |
| Strings.Split | functions/_shared/config.js:6 | at least one part, none containing the separator |
| Strings.JoinSplit | functions/_shared/config.js:6 | joining the parts of a split with the separator gives the input back |
| Strings.SplitConcat | functions/_shared/config.js:6 | splitting `a + sep + b` gives the parts of `a` followed by those of `b` |
| Config.ToPrefix | functions/_shared/config.js:9-11 | same length; every character in [A-Z0-9_]; lower-case ASCII letters upper-cased, [A-Z0-9_] kept |
| Config.ToPrefixIdempotent | functions/_shared/config.js:9-11 | applying the prefix mapping twice equals applying it once |
| Config.ResolveAppLabel | functions/_shared/config.js:17-22 | "" or a configured label; a configured non-empty query is returned; the single label when there is one; "" with no labels, or with several and an unlisted query |
| Config.PickLabel | functions/_shared/config.js:19-21 | the choice among given labels: a listed non-empty query, else the only label, else "" |
| Config.DefaultInstallLabel | functions/_shared/config.js:26-29 | the first configured label (non-empty), or "" when none is configured |
| Config.ReadConfig | functions/_shared/config.js:32-42 | definition (the bundle of prefixed variables); properties in Config.FieldIsEnv and Config.ConfigOkFields |
| Config.MissingAmong | functions/_shared/config.js:44-46 | definition (the empty required keys, prefixed, in order); properties in Config.MissingAmongOrdered and Config.ConfigErrNamesMissing |
| Config.MissingMessage | functions/_shared/config.js:49 | definition (the error text); properties in Config.ConfigErrNamesMissing |
| Config.ResolveConfig | functions/_shared/config.js:31-52 | definition (`getAppConfig`); properties in Config.ConfigOkIff, Config.ConfigOkFields, Config.ConfigErrNamesMissing and Config.GetAppConfig |
| Config.GetAppConfig | functions/_shared/config.js:31-52 | the `forEach`/`push` loop returns exactly `ResolveConfig` (missing keys collected in checking order) |
| Config.ConfigOkIff | functions/_shared/config.js:44-51 | success exactly when all five required prefixed variables are set and non-empty |
| Config.ConfigOkFields | functions/_shared/config.js:34-42 | on success the bundle has the label and each prefixed variable, the required ones non-empty, the scope "" when unset |
| Config.ConfigErrNamesMissing | functions/_shared/config.js:44-49 | failure exactly when keys are missing; the message names them; a key is listed iff it is a required prefixed variable that is empty; listed in the fixed checking order |
| Config.FieldIsEnv | functions/_shared/config.js:34-42 | each bundle field is the tenant's prefixed variable or "" |
| Config.MissingAmongOrdered | functions/_shared/config.js:44-46 | the collected missing keys are a subsequence of the prefixed required keys |
| Config.ScopeNeverRequired | functions/_shared/config.js:41-46 | changing `OAUTH_SCOPE` never changes whether the configuration succeeds |
| Config.SamePrefixSameConfig | functions/_shared/config.js:32-42 | labels with the same prefix read the same bundle (up to the label) and succeed alike |
| Base64.Encode | functions/auth/start.js:4 | `Buffer.toString("base64")` has length 4·ceil(n/3), a multiple of four |
| Pkce.ToBase64Url | functions/auth/start.js:4 | definition (the three `replace` calls); properties in Pkce.ToBase64UrlShape and Pkce.B64uRecoverable |
| Pkce.B64u | functions/auth/start.js:4 | definition (`b64u`); properties in Pkce.B64uLength and Pkce.EncodeRecoverable |
| Pkce.Sha256B64u | functions/auth/start.js:5 | definition (`sha256b64u`); properties in Pkce.ChallengeLength |
| Pkce.ToBase64UrlShape | functions/auth/start.js:4 | `b64u` leaves no `+`, `/` or trailing `=`, maps `+`→`-`, `/`→`_` per character, and its length is the input's minus the trailing `=` run |
| Pkce.B64uRecoverable | functions/auth/start.js:4 | mapping `-`/`_` back and padding to a multiple of four recovers any standard base64 text |
| Pkce.EncodeRecoverable | functions/auth/start.js:4 | for every byte sequence, re-padding the URL-safe text recovers Buffer's base64 text |
| Pkce.B64uLength | functions/auth/start.js:4 | `b64u` of n bytes has ceil(4n/3) characters, all letters, digits, `-` or `_` |
| Pkce.VerifierLength | functions/auth/start.js:22 | the verifier of 64 random bytes has 86 unreserved characters, within 43..128 |
| Pkce.ChallengeLength | functions/auth/start.js:23 | the S256 challenge of a 32-byte digest has 43 unreserved characters |
| Urls.SetParam | functions/auth/start.js:37-43 | after `set`, looking the name up gives the value; a new name is appended at the end |
| Urls.SetParamOthers | functions/auth/start.js:37-43 | `set` leaves every other name's value and the pairs of other names as they were; the result is those pairs plus exactly one more, so no duplicate of the name survives |
| Urls.SetNew | functions/auth/start.js:37-43 | `set` of an absent name appends exactly one pair |
| Urls.Url.Set | functions/auth/start.js:37-43 | `searchParams.set` replaces the URL's parameters by `SetParam` of the old ones |
| Http.Response.SetHeader | functions/auth/start.js:28 | `setHeader` replaces that header and changes nothing else |
| Http.Response.SetStatus | functions/auth/start.js:8 | `res.status(code)` and `res.statusCode = code` set the status and change nothing else |
| Http.Response.End | functions/auth/callback.js:66 | `res.end(body)` sets the body, finishes, and changes nothing else |
| Http.Response.Json | functions/auth/start.js:8 | `res.json` adds the JSON content type only when none is set, sets the body and finishes |
| Http.Response.Redirect | functions/auth/start.js:45 | `res.redirect` sets 302 and the location and finishes |
| Start.StartReply | functions/auth/start.js:7-46 | definition (the handler as a function); properties in Start.StartRedirectsIff, Start.StartRedirectReply and Start.StartBindsPreAuth |
| Start.AuthorizeBase | functions/auth/start.js:36 | definition (the tenant's authorize endpoint); properties in Start.BuildAuthorizeUrl |
| Start.AuthorizeParams | functions/auth/start.js:37-43 | definition (the parameters in `set` order); properties in Start.AuthorizeQuery and Start.BuildAuthorizeUrl |
| Start.PreAuthRecord | functions/auth/start.js:26 | definition (the `pre_auth` JSON record); properties in Start.RecordMatchesQuery |
| Start.PreAuthCookie | functions/auth/start.js:28-34 | definition (the `pre_auth` cookie and its options); properties in Start.RedirectBinds |
| Start.HandleStart | functions/auth/start.js:7-46 | the handler leaves the response equal to `StartReply` |
| Start.BuildAuthorizeUrl | functions/auth/start.js:36-43 | the `set` calls build exactly the parameter list `AuthorizeParams` on the tenant's authorize endpoint |
| Start.SetStateAndChallenge | functions/auth/start.js:41-43 | the last three `set` calls append state, challenge and `S256` in that order |
| Start.StartRedirectsIff | functions/auth/start.js:8-45 | a redirect happens exactly for a GET whose tenant resolves and is fully configured; otherwise a JSON error with no cookie and no location |
| Start.StartRejectsOtherMethods | functions/auth/start.js:8 | any non-GET gets 405 "Method not allowed" |
| Start.StartNeedsExplicitApp | functions/auth/start.js:15-16 | an unresolved tenant gets 400 with `allowed` = the configured labels, and no cookie |
| Start.StartReportsMissingConfig | functions/auth/start.js:18-19 | an incompletely configured tenant gets 500 with the resolver's message |
| Start.AuthorizeQuery | functions/auth/start.js:37-43 | the query has response_type=code, client_id, redirect_uri, state, code_challenge, method S256, and scope exactly when configured |
| Start.StartRedirectReply | functions/auth/start.js:18-45 | a redirect is exactly the `pre_auth` cookie plus the authorize URL built from the resolved tenant's configuration |
| Start.StartRedirectTarget | functions/auth/start.js:36-43 | the redirect carries the tenant's client id and redirect URI and the generated state |
| Start.RecordMatchesQuery | functions/auth/start.js:24-43 | the stored record has the URL's state, the tenant, and a verifier whose S256 hash is the URL's challenge |
| Start.RedirectBinds | functions/auth/start.js:22-43 | a redirect built from a configuration sets one `pre_auth` cookie (5 minutes, HTTP-only, Secure) bound to the URL |
| Start.StartBindsPreAuth | functions/auth/start.js:22-45 | every redirect binds its `pre_auth` cookie to a configured tenant and to the URL's state and challenge |
| Session.Lifetime | functions/auth/callback.js:47 | a non-zero numeric `expires_in` is used; a missing or zero one gives 3600; never 0 |
| Callback.ProviderError | functions/auth/callback.js:38 | `error_description`, else `error`, else the whole body |
| Callback.SessionFromExchange | functions/auth/callback.js:40-49 | the payload's tenant, tokens, `obtainedAt` = now, `expiresAt` = now + lifetime, token type defaulting to Bearer, scope falling back to the configured one then null |
| Callback.CallbackOutcome | functions/auth/callback.js:6-73 | definition (the handler as a function); properties in Callback.CallbackGates, Callback.StateMismatchRefused, Callback.ExchangeRequiresState and Callback.SessionIffAccepted |
| Callback.ReadPreAuth | functions/auth/callback.js:16-17 | definition (`null` without the cookie, a throw when it is not JSON); properties in Callback.StateMismatchRefused |
| Callback.ExchangeUrl | functions/auth/callback.js:24 | definition (the tenant's token endpoint); properties in Callback.ExchangeRequiresState |
| Callback.ExchangeRequest | functions/auth/callback.js:24-36 | definition (the POST of the authorization code); properties in Callback.ExchangeRequiresState and Flow.PkceBinding |
| Callback.CompletionReply | functions/auth/callback.js:57-72 | definition (the two cookies and the HTML page); properties in Callback.CompletionCookies |
| Session.Sealed | functions/auth/callback.js:52-55 | definition (`setIssuedAt` and `setExpirationTime("30d")` at `now`); properties in Callback.StoredSession |
| Callback.HandleCallback | functions/auth/callback.js:6-73 | the handler leaves the response equal to `CallbackOutcome`, and returns the request it sent and whether it threw |
| Callback.CallbackGates | functions/auth/callback.js:7-14 | 405, then 500 without COOKIE_SECRET, then 400 without code or state; none contacts the provider or sets a cookie |
| Callback.StateMismatchRefused | functions/auth/callback.js:17-18 | an absent cookie or a state different from the cookie's gets 400 "Invalid state" with no exchange |
| Callback.ExchangeRequiresState | functions/auth/callback.js:17-36 | an exchange implies the gates passed and the state matched; it goes to the cookie's tenant with the code and the cookie's verifier |
| Callback.StateMatchExchanges | functions/auth/callback.js:18-36 | conversely, a matching state and a configured tenant always lead to that exchange |
| Callback.ProviderRejectionForwarded | functions/auth/callback.js:38 | a non-2xx reply is forwarded with its status and `ProviderError`, and no cookie |
| Callback.SessionIffAccepted | functions/auth/callback.js:37-64 | a cookie is set exactly when the provider accepted the exchange with a non-null body |
| Callback.CompletionCookies | functions/auth/callback.js:57-65 | the cookies are a 30-day encrypted `oauth_token` and a cleared `pre_auth` with maxAge 0, on an HTML 200 page |
| Callback.StoredSession | functions/auth/callback.js:40-55 | the stored session names the cookie's tenant, has the provider's tokens and times, and is sealed with `iat` now and `exp` 30 days on |
| Callback.IssuedSessionClaims | functions/auth/callback.js:40-64 | an issued session belongs to a configured tenant and its fields come from the provider's reply to the exchange |
| Token.AllowedOrigins | functions/auth/token.js:8-9 | definition (`ALLOWED_ORIGIN` split, trimmed, filtered); properties in Strings.ParseListEntries |
| Token.AnyWildcard | functions/auth/token.js:12 | definition (the `some` test over `*.` entries); properties in Token.AnyWildcardIff |
| Token.OriginAllowed | functions/auth/token.js:11-12 | definition (an exact or wildcard match); properties in Token.ExactOriginAllowed, Token.WildcardCovers and Token.OriginRefused |
| Token.CorsHeaders | functions/auth/token.js:13-18 | definition (the CORS headers); properties in Token.CorsHeadersShape |
| Token.AnyWildcardIff | functions/auth/token.js:12 | `allowed.some(...)` holds exactly when some entry `*.s` matches the origin's suffix |
| Token.SomeWildcard | functions/auth/token.js:12 | the loop's answer equals `AnyWildcard` |
| Token.HandleCors | functions/auth/token.js:6-21 | the headers are the CORS headers; it finishes (200, empty) exactly for OPTIONS |
| Token.ExactOriginAllowed | functions/auth/token.js:11 | a listed non-empty origin is allowed |
| Token.WildcardCovers | functions/auth/token.js:12 | an origin ending in the suffix of a `*.` entry is allowed; a bare `*` matches nothing |
| Token.OriginRefused | functions/auth/token.js:11-13 | a missing or empty origin, or one neither listed nor covered, gets no Allow-Origin |
| Token.CorsHeadersShape | functions/auth/token.js:13-18 | the four fixed headers always; Allow-Origin exactly when allowed, equal to the origin |
| Token.RefreshKeepsCors | functions/auth/token.js:76-100 | the refresh branch changes no CORS header |
| Token.SessionKeepsCors | functions/auth/token.js:44-111 | past the cookie check, no reply changes a CORS header |
| Token.TokenKeepsCors | functions/auth/token.js:36-111 | no reply of the handler changes a CORS header |
| Token.CorsOnEveryReply | functions/auth/token.js:13-18 | every reply, exceptions included, has the CORS headers, Allow-Origin exactly for an allowed origin |
| Token.PreflightShortCircuits | functions/auth/token.js:19 | OPTIONS gets 200 with no body before any other check |
| Token.SendJson | functions/auth/token.js:23-27 | `sendJson` sets the status, the JSON content type and the body and finishes, keeping the other headers |
| Token.TokenOutcome | functions/auth/token.js:35-112 | definition (the handler as a function); properties in Token.CorsOnEveryReply, Token.TokenGates, Token.RefreshIff and Token.RefreshAnswered |
| Token.ReadSession | functions/auth/token.js:42-47 | definition (no cookie, an unreadable one, or a session whose `exp` has not passed); properties in Token.ExpiredSessionUnreadable and Token.TokenGates |
| Token.TokenGates | functions/auth/token.js:37-44 | 405, 500 "COOKIE_SECRET missing", 401 "Not authenticated", with no refresh and no cookie |
| Token.ExpiredSessionUnreadable | functions/auth/token.js:47 | a session whose `exp` has passed is refused by decryption |
| Token.TokenReachesSession | functions/auth/token.js:42-53 | past the gates the handler continues with the session read at `now` |
| Token.FormEncode | functions/auth/token.js:29-33 | definition (the entries without `null` or `undefined` values); properties in Token.FormEncodeFilters and Token.FormKeepsPresent |
| Token.FormEncodeFilters | functions/auth/token.js:29-33 | the form is an ordered selection of the entries, holds only non-nullish ones and every one of them, and has as many elements as there are non-nullish entries: it is exactly those entries in their order |
| Token.FormKeepsPresent | functions/auth/token.js:29-33 | a form without null or undefined values is kept whole |
| Token.SessionOutcome | functions/auth/token.js:47-111 | definition (the handler past the cookie check); properties in Token.SessionRefreshIff and Token.SessionKeepsCors |
| Token.NeedsRefresh | functions/auth/token.js:54 | definition (`expiresAt`, or 0 when falsy, less than 60 s after now); properties in Token.SessionRefreshIff and Token.RefreshedIsFresh |
| Token.RefreshUrl | functions/auth/token.js:57 | definition (the tenant's refresh endpoint); properties in Token.RefreshIff |
| Token.RefreshRequest | functions/auth/token.js:57-74 | definition (the form POST of the refresh token); properties in Token.RefreshForm and Token.FormOfPresent |
| Token.RefreshOutcome | functions/auth/token.js:70-101 | definition (the reply to a refresh); properties in Token.RefreshAnswer and Token.RefreshKeepsCors |
| Token.SessionRefreshIff | functions/auth/token.js:53-70 | with a readable configured session, the provider is contacted exactly when it expires within 60 s and has a refresh token |
| Token.RefreshIff | functions/auth/token.js:53-74 | the handler contacts the provider exactly in that case, with that refresh token |
| Token.ConfiguredSecret | functions/auth/token.js:67 | a successful configuration always has a client secret |
| Token.RefreshForm | functions/auth/token.js:61-68 | the refresh form is grant type, client id, redirect URI, refresh token and client secret, in that order |
| Token.FormOfPresent | functions/auth/token.js:61-68 | with a secret and a refresh token, the form keeps all five entries |
| Token.RefreshAnswer | functions/auth/token.js:70-100 | a refused refresh forwards the status and error without a cookie; an accepted one re-seals the merged session for 30 days and returns its view |
| Token.RefreshAnswered | functions/auth/token.js:70-100 | the same for every refresh the handler makes |
| Token.ServedWithoutRefresh | functions/auth/token.js:103-111 | with no refresh, the view of the session is returned with 200 and no cookie |
| Token.MergeRefresh | functions/auth/token.js:80-90 | definition (the spread of the old session with the reply's fields); properties in Token.MergeTakesNewOrOld, Token.MergeKeepsRefreshToken, Token.MergeKeepsValues and Token.MergeIdempotent |
| Token.MergeTakesNewOrOld | functions/auth/token.js:80-90 | access token, token type, scope, location and organization each take the reply's value when truthy and keep the session's otherwise; `obtainedAt` is now and the lifetime is the reply's |
| Token.MergeKeepsRefreshToken | functions/auth/token.js:86 | a present refresh token is never lost; a rotated one replaces it |
| Token.MergeKeepsValues | functions/auth/token.js:80-90 | the tenant and other members stay; no field that had a value loses it |
| Token.MergeEmptyReply | functions/auth/token.js:80-90 | an empty reply only restarts the clock with the default hour |
| Token.MergeIdempotent | functions/auth/token.js:80-90 | merging the same reply twice at the same time equals merging it once |
| Token.RefreshedIsFresh | functions/auth/token.js:54-89 | after a refresh whose token lives at least 60 s, no refresh is needed at that moment |
| Token.TokenView | functions/auth/token.js:103-111 | the view is an object with exactly the seven public keys |
| Token.ViewHidesSecrets | functions/auth/token.js:103-111 | the view never shows the refresh token or other members |
| Token.ViewDefaults | functions/auth/token.js:103-111 | token type Bearer and null scope, location and organization by default |
| Token.HandleToken | functions/auth/token.js:35-112 | the handler leaves the response equal to `TokenOutcome`, and returns the request it sent and whether it threw |
| Flow.PkceBinding | functions/auth/callback.js:17-36 | a callback with the state and `pre_auth` cookie of a start redirect exchanges the code at the same tenant with the same redirect URI and a verifier whose S256 hash was the redirect's challenge |
| Flow.FreshSessionServed | functions/auth/token.js:42-111 | a session just issued by the callback, still a minute from expiry, is served as it is with the provider's access token |

## Left out

- Encryption and decryption of the session (`jose`'s `EncryptJWT` and `jwtDecrypt`) are abstract. An encrypted cookie carries its claims. Tampering, key size and the base64 decoding of COOKIE_SECRET are not modelled. A cookie that is not a session JWE, or whose `exp` claim has passed or is not a number, reads as unreadable.
- SHA-256, `crypto.randomBytes` and `crypto.randomUUID` are parameters.
- `fetch` and `resp.json()` are a provider function over the request. Network failures and a body that is not JSON are not modelled.
- Serialisation is not modelled: cookie text, URL text, URL encoding, `JSON.stringify` and `URLSearchParams.toString`. Cookies and queries are values.
- The HTML and script of the completion page are a single constant body.
- The body and status text Express writes with a redirect are not modelled.
- functions/auth/logout.js and devServer.mjs are not part of this model.
- There is no install handshake in functions/auth/callback.js. `Config.DefaultInstallLabel` is modelled on its own.
- Config.ToPrefix: upper-cases ASCII letters only. JavaScript's `toUpperCase` also maps a few non-ASCII letters to ASCII, such as `ß` to `SS` and `ſ` to `S`. A character outside the Basic Multilingual Plane is one `_` here but two in JavaScript, which works on UTF-16 units.
- Session.Lifetime: treats a non-numeric truthy `expires_in` as absent. JavaScript would concatenate a string, or add a non-integer number. Integer seconds are assumed.
- Session.Payload: `expiresAt` is an integer. A decrypted session whose `expiresAt` is missing or not a number is not modelled. The source would compute `(undefined || 0) - now`.
- Token.ReadSession: does not model `jwtDecrypt` checks other than `exp` (`nbf`, `iat`, critical headers).
- Start.AuthorizeBase: the region and the app UID are assumed to form a valid URL with no `?` or `#` in them. A `new URL` that throws on an invalid host (functions/auth/start.js:36), and a query or fragment carried in by those values, are not modelled.
- The clock is read once per request. `setIssuedAt`, `setExpirationTime` and the expiry check of `jwtDecrypt` read the clock themselves in `jose`; the model gives them the same `now` as `Date.now()`. `Callback.StoredSession` (`iat` equal to now, `exp` 30 days on) and `Token.ExpiredSessionUnreadable` rely on that.
- Start.StartReply: the hash gives a digest for each string; the UTF-8 encoding of the verifier before hashing is not modelled.
