/**
 * The session payload that functions/auth/callback.js creates and
 * functions/auth/token.js reads and refreshes. It travels only inside the
 * encrypted `oauth_token` cookie.
 */
module Session {
  import opened Js

  /**
   * The payload object. Token fields hold whatever JavaScript value the
   * provider sent (`Undefined` when it sent none); `others` holds every
   * other member of the decrypted JWT payload, such as the claims `iat` and
   * `exp` that the encryption step adds.
   */
  datatype Payload = Payload(
    app: string,
    accessToken: Value,
    refreshToken: Value,
    tokenType: Value,
    scope: Value,
    expiresAt: int,
    obtainedAt: int,
    location: Value,
    organizationUid: Value,
    others: map<string, Value>)

  /** 30 days in seconds, both the JWT expiry and the cookie's `maxAge`. */
  const SessionLifetime: int := 30 * 24 * 60 * 60

  /** Token lifetime in seconds when the provider does not give one. */
  const DefaultLifetime: int := 3600

  /**
   * The claims `new EncryptJWT(p).setIssuedAt().setExpirationTime("30d")`
   * seals: the payload with `iat` and `exp` set.
   */
  function Sealed(p: Payload, now: int): Payload {
    p.(others := p.others["iat" := Num(now)]["exp" := Num(now + SessionLifetime)])
  }

  /** `json.expires_in || 3600` for a numeric `expires_in`. */
  function Lifetime(json: Value): (seconds: int)
    ensures seconds != 0
    ensures Get(json, "expires_in").Num? && Get(json, "expires_in").n != 0 ==> seconds == Get(json, "expires_in").n
    ensures !Truthy(Get(json, "expires_in")) ==> seconds == DefaultLifetime
  {
    var e := Get(json, "expires_in");
    if e.Num? && e.n != 0 then e.n else DefaultLifetime
  }
}
