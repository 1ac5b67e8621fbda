/**
 * The HTTP surface the handlers work on: requests, cookies, the response
 * object `res` they mutate, and the provider's token endpoint.
 */
module Http {
  import opened Wrappers
  import opened Js
  import opened Session

  /**
   * A cookie value as the handlers write and read it; the serialisation of
   * the `cookie` library and the JWE encryption are abstracted away.
   */
  datatype CookieValue =
    | Empty                   // ""
    | JsonText(json: Value)   // JSON.stringify(json)
    | Jwe(claims: Payload)    // a JWE sealed with COOKIE_SECRET that decrypts to these claims

  datatype Cookie = Cookie(name: string, value: CookieValue, maxAge: int, httpOnly: bool, secure: bool, sameSite: string, path: string)

  /** The options every cookie of the relay carries: HTTP-only, Secure, path `/`. */
  function RelayCookie(name: string, value: CookieValue, maxAge: int, sameSite: string): Cookie {
    Cookie(name, value, maxAge, true, true, sameSite, "/")
  }

  datatype HeaderValue =
    | Text(text: string)
    | SetCookies(cookies: seq<Cookie>)
    | Location(base: string, query: seq<(string, string)>)   // a URL with its search parameters

  datatype Body = NoBody | JsonBody(json: Value) | CompletionPage

  /**
   * An incoming request: its method, the first value of each query
   * parameter, the parsed `Cookie` header and the `Origin` header.
   */
  datatype Request = Request(
    httpMethod: string,
    query: map<string, string>,
    cookies: map<string, CookieValue>,
    origin: Option<string>)

  /** `url.searchParams.get(name)` */
  function QueryGet(req: Request, name: string): Option<string> {
    if name in req.query then Some(req.query[name]) else None
  }

  /** `!!x` for a query value: present and non-empty. */
  predicate Present(x: Option<string>) {
    x.Some? && x.value != ""
  }

  /** The state of `res`: status code, headers, body and whether it has been ended. */
  datatype Reply = Reply(status: int, headers: map<string, HeaderValue>, body: Body, finished: bool)

  /** A response before the handler touches it. */
  const Initial: Reply := Reply(200, map[], NoBody, false)

  const JsonType: string := "application/json; charset=utf-8"
  const HtmlType: string := "text/html; charset=utf-8"

  /** A request to the provider's token endpoint: URL, `Content-Type` and body fields in order. */
  datatype ProviderRequest = ProviderRequest(url: string, contentType: string, fields: seq<(string, Value)>)

  /** What `fetch` and `resp.json()` give back. */
  datatype ProviderReply = ProviderReply(status: int, body: Value) {
    /** `resp.ok` */
    predicate Ok() { 200 <= status <= 299 }
  }

  /**
   * What a handler did: the response state it left, the provider request it
   * sent, and whether it ended in an uncaught exception.
   */
  datatype Outcome = Outcome(reply: Reply, sent: Option<ProviderRequest>, threw: bool)

  /** `res`, as the hosting platform's Express-style response object. */
  class Response {
    var status: int
    var headers: map<string, HeaderValue>
    var body: Body
    var finished: bool

    constructor ()
      ensures Snapshot() == Initial
    {
      status, headers, body, finished := 200, map[], NoBody, false;
    }

    function Snapshot(): Reply
      reads this
    {
      Reply(status, headers, body, finished)
    }

    /** `res.setHeader(name, value)`: replaces any earlier value; refused once the response has ended. */
    method SetHeader(name: string, value: HeaderValue)
      requires !finished
      modifies this
      ensures Snapshot() == old(Snapshot()).(headers := old(headers)[name := value])
    {
      headers := headers[name := value];
    }

    /** `res.status(code)` and `res.statusCode = code` */
    method SetStatus(code: int)
      requires !finished
      modifies this
      ensures Snapshot() == old(Snapshot()).(status := code)
    {
      status := code;
    }

    /** `res.json(obj)`: sets the JSON `Content-Type` unless one is set, sends the body and ends. */
    method Json(obj: Value)
      requires !finished
      modifies this
      ensures Snapshot() == old(Snapshot()).(
        headers := if "Content-Type" in old(headers) then old(headers) else old(headers)["Content-Type" := Text(JsonType)],
        body := JsonBody(obj), finished := true)
    {
      if "Content-Type" !in headers {
        headers := headers["Content-Type" := Text(JsonType)];
      }
      body := JsonBody(obj);
      finished := true;
    }

    /** `res.end(body)` */
    method End(b: Body)
      requires !finished
      modifies this
      ensures Snapshot() == old(Snapshot()).(body := b, finished := true)
    {
      body := b;
      finished := true;
    }

    /** `res.redirect(url)`: 302 with a `Location` header. */
    method Redirect(base: string, query: seq<(string, string)>)
      requires !finished
      modifies this
      ensures Snapshot() == old(Snapshot()).(status := 302, headers := old(headers)["Location" := Location(base, query)], finished := true)
    {
      status := 302;
      headers := headers["Location" := Location(base, query)];
      finished := true;
    }
  }

  /** The reply of `res.status(code).json(obj)` on a fresh response. */
  function JsonReply(code: int, obj: Value): Reply {
    Reply(code, map["Content-Type" := Text(JsonType)], JsonBody(obj), true)
  }

  /** The value of the first cookie a reply sets, if it sets any. */
  function FirstCookie(r: Reply): Option<CookieValue> {
    if "Set-Cookie" in r.headers && r.headers["Set-Cookie"].SetCookies? && |r.headers["Set-Cookie"].cookies| > 0
    then Some(r.headers["Set-Cookie"].cookies[0].value)
    else None
  }

  /** The query of the URL a reply redirects to; empty when it does not redirect. */
  function RedirectQuery(r: Reply): seq<(string, string)> {
    if "Location" in r.headers && r.headers["Location"].Location? then r.headers["Location"].query else []
  }
}
