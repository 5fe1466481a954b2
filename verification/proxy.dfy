/** The Worker's request handler (`fetch` in src/index.ts): route by path
    and method, answer OPTIONS locally, and relay GET, HEAD and POST to the
    target API with `Access-Control-Allow-Origin: *` laid over the reply.
    The network call itself is a parameter, `upstream`. */
module CorsProxy {
  import opened Wrappers
  import opened HttpHeaders
  import opened Urls

  /** The fallback target when the request names none. */
  const ApiUrl: string := "https://examples.cloudflareworkers.com/demos/demoapi"

  /** The fallback target has an origin, so a request without `apiurl` is fetched. */
  lemma ApiUrlOrigin()
    ensures Origin(ApiUrl) == Some("https://examples.cloudflareworkers.com")
  {
    var origin := ApiUrl[..38];
    assert origin == "https://examples.cloudflareworkers.com";
    var lead := origin[..8];
    assert lead == "https://";
    assert ApiUrl[..5] == lead[..5] && IsScheme(lead[..5]);
    assert ApiUrl[5..8] == lead[5..8] == "://";
    NoAuthorityEndInHost(origin);
    assert forall j | 8 <= j < 38 :: ApiUrl[j] == origin[j];
    assert IsAuthorityEnd(ApiUrl[38]);
    OriginAt(ApiUrl, 5, 38);
    assert ApiUrl[..38] == "https://examples.cloudflareworkers.com";
  }

  /** The fallback target's host holds no `/`, `?` or `#`. A step of
      ApiUrlOrigin, kept apart so that its proof is stable across solver seeds. */
  lemma NoAuthorityEndInHost(origin: string)
    requires origin == "https://examples.cloudflareworkers.com"
    ensures forall j | 8 <= j < |origin| :: !IsAuthorityEnd(origin[j])
  {
  }

  /** The path prefix under which requests are proxied. */
  const ProxyEndpoint: string := "/corsproxy/"

  /** The demo page; its text is elided in the program itself. */
  const DemoPage: string := "..."

  /** The `corsHeaders` record, field by field, in source order. */
  const CorsHeaders: seq<(string, string)> := [
    ("Access-Control-Allow-Origin", "*"),
    ("Access-Control-Allow-Methods", "GET,HEAD,POST,OPTIONS"),
    ("Access-Control-Max-Age", "86400")
  ]

  /** The `Allow` value of a plain OPTIONS reply. */
  const AllowedMethods: string := "GET, HEAD, POST, OPTIONS"

  /** A body: absent (`null`) or some text. Streaming is not modelled. */
  datatype Body = NullBody | Text(content: string)

  /** An inbound request. */
  datatype Request = Request(verb: string, url: Url, headers: HeaderMap, body: Body)

  /** The request handed to `fetch`: target URL, method, headers and body. */
  datatype Outbound = Outbound(url: string, verb: string, headers: HeaderMap, body: Body)

  /** A response, whether built here or received from upstream. */
  datatype Response = Response(status: int, statusText: string, headers: HeaderMap, body: Body)

  /** What makes the handler throw instead of answering. */
  datatype Fault =
    | InvalidUrl(input: string)  // the origin split rejects the target; stands for the TypeError of `new Request(apiUrl, …)` / `new URL(apiUrl)`
    | FetchFailed(reason: string)  // the `fetch` promise rejects

  /** The settled promise the handler returns: a reply, or a thrown error. */
  datatype Outcome = Reply(response: Response) | Thrown(fault: Fault)

  /** The four ways a request is dispatched. */
  datatype Route = DemoPageRoute | OptionsRoute | ForwardRoute | RejectRoute

  predicate IsForwardedMethod(verb: string) {
    verb == "GET" || verb == "HEAD" || verb == "POST"
  }

  /** The top-level decision: path prefix first, then the method. */
  function Classify(req: Request): (r: Route)
    ensures r == DemoPageRoute <==> !(ProxyEndpoint <= req.url.pathname)
    ensures r == OptionsRoute <==> ProxyEndpoint <= req.url.pathname && req.verb == "OPTIONS"
    ensures r == ForwardRoute <==> ProxyEndpoint <= req.url.pathname && IsForwardedMethod(req.verb)
    ensures r == RejectRoute <==>
              ProxyEndpoint <= req.url.pathname && req.verb != "OPTIONS" && !IsForwardedMethod(req.verb)
  {
    if ProxyEndpoint <= req.url.pathname then
      if req.verb == "OPTIONS" then OptionsRoute
      else if IsForwardedMethod(req.verb) then ForwardRoute
      else RejectRoute
    else DemoPageRoute
  }

  /** `new Response(body, { headers })` leaves status 200 and an empty status text. */
  function DefaultResponse(body: Body, headers: HeaderMap): Response
  {
    Response(200, "", headers, body)
  }

  /** `rawHtmlResponse(html)`. */
  function RawHtmlResponse(html: string): (r: Response)
    ensures r.status == 200 && r.body == Text(html)
    ensures r.headers.Keys == {Lower("content-type")}
    ensures GetHeader(r.headers, "content-type") == Some("text/html;charset=UTF-8")
  {
    DefaultResponse(Text(html), FromRecord([("content-type", "text/html;charset=UTF-8")]))
  }

  /** A CORS preflight: the request carries all three of `Origin`,
      `Access-Control-Request-Method` and `Access-Control-Request-Headers`. */
  predicate IsPreflight(h: HeaderMap): (r: bool)
    ensures r <==> Lower("Origin") in h && Lower("Access-Control-Request-Method") in h
                   && Lower("Access-Control-Request-Headers") in h
  {
    GetHeader(h, "Origin").Some?
    && GetHeader(h, "Access-Control-Request-Method").Some?
    && GetHeader(h, "Access-Control-Request-Headers").Some?
  }

  /** `handleOptions`: a preflight gets the CORS record plus the requested
      headers echoed back; anything else gets only `Allow`. Neither has a body. */
  function HandleOptions(h: HeaderMap): (r: Response)
    ensures r.status == 200 && r.statusText == "" && r.body == NullBody
  {
    if IsPreflight(h) then
      DefaultResponse(NullBody, FromRecord(CorsHeaders + [
        ("Access-Control-Allow-Headers", GetHeader(h, "Access-Control-Request-Headers").value)]))
    else
      DefaultResponse(NullBody, FromRecord([("Allow", AllowedMethods)]))
  }

  /** The 405 reply: no body and no headers at all. */
  function MethodNotAllowed(): (r: Response)
    ensures r.status == 405 && r.statusText == "Method Not Allowed"
    ensures r.body == NullBody && r.headers == map[]
  {
    Response(405, "Method Not Allowed", map[], NullBody)
  }

  /** The forward target: the `apiurl` query value, or `ApiUrl` when absent. */
  function Target(url: Url): (t: string)
    ensures (forall j | 0 <= j < |url.query| :: url.query[j].0 != "apiurl") ==> t == ApiUrl
    ensures (exists j | 0 <= j < |url.query| :: url.query[j].0 == "apiurl") ==>
              exists k | 0 <= k < |url.query| ::
                url.query[k] == ("apiurl", t) && forall j | 0 <= j < k :: url.query[j].0 != "apiurl"
  {
    match SearchParamsGet(url.query, "apiurl")
    case Some(v) => v
    case None => ApiUrl
  }

  /** The request `handleRequest` hands to `fetch`: the inbound method, headers
      and body sent to the target, with `Origin` set to the target's origin.
      None when the origin split rejects the target (the constructor throws). */
  function Forwarded(req: Request): (r: Option<Outbound>)
    ensures r.None? <==> Origin(Target(req.url)).None?
    ensures r.Some? ==>
              && r.value.url == Target(req.url)
              && r.value.verb == req.verb
              && r.value.body == req.body
              && GetHeader(r.value.headers, "Origin") == Origin(Target(req.url))
              && (forall n | Lower(n) != Lower("Origin") :: GetHeader(r.value.headers, n) == GetHeader(req.headers, n))
              && r.value.headers.Keys == req.headers.Keys + {Lower("Origin")}
  {
    var target := Target(req.url);
    match Origin(target)
    case None => None
    case Some(origin) => Some(Outbound(target, req.verb, SetHeader(req.headers, "Origin", origin), req.body))
  }

  /** `new Response(response.body, response)` followed by
      `headers.set("Access-Control-Allow-Origin", "*")`: status, status text,
      body and every other header are the upstream's. */
  function Overlay(up: Response): (r: Response)
    ensures r.status == up.status && r.statusText == up.statusText && r.body == up.body
    ensures GetHeader(r.headers, "Access-Control-Allow-Origin") == Some("*")
    ensures forall n | Lower(n) != Lower("Access-Control-Allow-Origin") :: GetHeader(r.headers, n) == GetHeader(up.headers, n)
    ensures r.headers.Keys == up.headers.Keys + {Lower("Access-Control-Allow-Origin")}
  {
    Response(up.status, up.statusText, SetHeader(up.headers, "Access-Control-Allow-Origin", "*"), up.body)
  }

  /** What `handleRequest` settles to: the overlaid upstream reply, the
      upstream's own error (a rejected `fetch` propagates unchanged), or the
      error of a target the origin split rejects. */
  function ForwardSpec(req: Request, upstream: Outbound -> Outcome): (r: Outcome)
    ensures r.Reply? ==> Forwarded(req).Some? && upstream(Forwarded(req).value).Reply?
    ensures r.Reply? ==> GetHeader(r.response.headers, "Access-Control-Allow-Origin") == Some("*")
    ensures Forwarded(req).Some? && upstream(Forwarded(req).value).Reply? ==> r.Reply?
    ensures r.Thrown? ==> (Forwarded(req).None? && r == Thrown(InvalidUrl(Target(req.url))))
                          || (Forwarded(req).Some? && r == upstream(Forwarded(req).value))
  {
    match Forwarded(req)
    case None => Thrown(InvalidUrl(Target(req.url)))
    case Some(out) =>
      match upstream(out)
      case Thrown(f) => Thrown(f)
      case Reply(up) => Reply(Overlay(up))
  }

  /** What the Worker's `fetch` handler settles to. Only a forwarded request
      can throw; every other request gets a body-less reply or the demo page. */
  function FetchSpec(req: Request, upstream: Outbound -> Outcome): (r: Outcome)
    ensures r.Thrown? ==> Classify(req) == ForwardRoute
    ensures Classify(req) != ForwardRoute ==> r.Reply? && (r.response.body == NullBody || r.response.body == Text(DemoPage))
  {
    match Classify(req)
    case DemoPageRoute => Reply(RawHtmlResponse(DemoPage))
    case OptionsRoute => Reply(HandleOptions(req.headers))
    case ForwardRoute => ForwardSpec(req, upstream)
    case RejectRoute => Reply(MethodNotAllowed())
  }

  /** `handleRequest`, step by step: pick the target, copy the request and
      set its `Origin`, fetch, copy the response and set its
      `Access-Control-Allow-Origin`. */
  method HandleRequest(req: Request, upstream: Outbound -> Outcome) returns (o: Outcome)
    ensures o == ForwardSpec(req, upstream)
  {
    var apiUrl := SearchParamsGet(req.url.query, "apiurl");
    if apiUrl.None? {
      apiUrl := Some(ApiUrl);
    }
    var target := apiUrl.value;
    var origin := Origin(target);
    if origin.None? {
      return Thrown(InvalidUrl(target));
    }
    var outHeaders := new Headers(req.headers);
    outHeaders.Set("Origin", origin.value);
    var outbound := Outbound(target, req.verb, outHeaders.entries, req.body);
    var fetched := upstream(outbound);
    if fetched.Thrown? {
      return fetched;
    }
    var up := fetched.response;
    var responseHeaders := new Headers(up.headers);
    responseHeaders.Set("Access-Control-Allow-Origin", "*");
    o := Reply(Response(up.status, up.statusText, responseHeaders.entries, up.body));
  }

  /** The Worker's `fetch` handler. */
  method Fetch(req: Request, upstream: Outbound -> Outcome) returns (o: Outcome)
    ensures o == FetchSpec(req, upstream)
  {
    if ProxyEndpoint <= req.url.pathname {
      if req.verb == "OPTIONS" {
        o := Reply(HandleOptions(req.headers));
      } else if req.verb == "GET" || req.verb == "HEAD" || req.verb == "POST" {
        o := HandleRequest(req, upstream);
      } else {
        o := Reply(MethodNotAllowed());
      }
    } else {
      o := Reply(RawHtmlResponse(DemoPage));
    }
  }
}
