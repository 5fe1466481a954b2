/** Laws of the proxy's decision procedure: routing, the two OPTIONS replies,
    the forward target, the outbound request and the response overlay. */
module ProxyLaws {
  import opened Wrappers
  import opened HttpHeaders
  import opened Urls
  import opened CorsProxy

  /** Outside the proxy prefix every request, whatever its method, gets the
      demo page as HTML, and the upstream is never consulted. */
  lemma DemoPageOutsidePrefix(req: Request, upstream: Outbound -> Outcome)
    requires !(ProxyEndpoint <= req.url.pathname)
    ensures FetchSpec(req, upstream).Reply?
    ensures var r := FetchSpec(req, upstream).response;
            && r.status == 200
            && r.body == Text(DemoPage)
            && r.headers.Keys == {Lower("content-type")}
            && GetHeader(r.headers, "content-type") == Some("text/html;charset=UTF-8")
  {
  }

  /** `/corsproxy` without its trailing slash is outside the prefix. */
  lemma NoTrailingSlashIsDemoPage(req: Request, upstream: Outbound -> Outcome)
    requires req.url.pathname == "/corsproxy"
    ensures FetchSpec(req, upstream) == Reply(RawHtmlResponse(DemoPage))
  {
  }

  /** Under the prefix an OPTIONS request is answered locally: the reply is
      HandleOptions' and does not depend on the upstream. */
  lemma OptionsNeverForwarded(req: Request, u1: Outbound -> Outcome, u2: Outbound -> Outcome)
    requires ProxyEndpoint <= req.url.pathname && req.verb == "OPTIONS"
    ensures FetchSpec(req, u1) == FetchSpec(req, u2) == Reply(HandleOptions(req.headers))
  {
  }

  /** Under the prefix exactly GET, HEAD and POST are forwarded. */
  lemma ForwardedMethods(req: Request, upstream: Outbound -> Outcome)
    requires ProxyEndpoint <= req.url.pathname
    ensures IsForwardedMethod(req.verb) ==> FetchSpec(req, upstream) == ForwardSpec(req, upstream)
    ensures Classify(req) == ForwardRoute <==> req.verb in {"GET", "HEAD", "POST"}
  {
  }

  /** Under the prefix any other method gets 405 with no body and no header,
      CORS or otherwise, and the upstream is never consulted. */
  lemma OtherMethodsRejected(req: Request, upstream: Outbound -> Outcome)
    requires ProxyEndpoint <= req.url.pathname
    requires req.verb !in {"OPTIONS", "GET", "HEAD", "POST"}
    ensures FetchSpec(req, upstream) == Reply(Response(405, "Method Not Allowed", map[], NullBody))
  {
  }

  /** The four header names of a preflight reply are distinct once lower-cased. */
  lemma PreflightNamesDistinct()
    ensures Lower("Access-Control-Allow-Methods") != Lower("Access-Control-Allow-Headers")
    ensures Lower("Access-Control-Allow-Origin") != Lower("Access-Control-Allow-Methods")
    ensures Lower("Access-Control-Allow-Origin") != Lower("Access-Control-Allow-Headers")
    ensures Lower("Access-Control-Max-Age") != Lower("Access-Control-Allow-Origin")
    ensures Lower("Access-Control-Max-Age") != Lower("Access-Control-Allow-Methods")
    ensures Lower("Access-Control-Max-Age") != Lower("Access-Control-Allow-Headers")
  {
    assert Lower("Access-Control-Allow-Methods")[21] == LowerChar('M');
    assert Lower("Access-Control-Allow-Headers")[21] == LowerChar('H');
  }

  /** A preflight reply carries exactly the three CORS fields and the echoed
      `Access-Control-Request-Headers` value, and no body. */
  lemma PreflightReply(h: HeaderMap)
    requires IsPreflight(h)
    ensures var r := HandleOptions(h);
            && r.status == 200
            && r.body == NullBody
            && r.headers.Keys == {Lower("Access-Control-Allow-Origin"), Lower("Access-Control-Allow-Methods"),
                                  Lower("Access-Control-Max-Age"), Lower("Access-Control-Allow-Headers")}
            && GetHeader(r.headers, "Access-Control-Allow-Origin") == Some("*")
            && GetHeader(r.headers, "Access-Control-Allow-Methods") == Some("GET,HEAD,POST,OPTIONS")
            && GetHeader(r.headers, "Access-Control-Max-Age") == Some("86400")
            && GetHeader(r.headers, "Access-Control-Allow-Headers") == GetHeader(h, "Access-Control-Request-Headers")
  {
    var echoed := GetHeader(h, "Access-Control-Request-Headers").value;
    var allowHeaders := ("Access-Control-Allow-Headers", echoed);
    assert CorsHeaders + [allowHeaders] == [CorsHeaders[0], CorsHeaders[1], CorsHeaders[2], allowHeaders];
    PreflightNamesDistinct();
    FromRecordFour(CorsHeaders[0], CorsHeaders[1], CorsHeaders[2], allowHeaders);
  }

  /** When any of the three request headers is missing, the reply has no body
      and exactly one header, `Allow`. */
  lemma PlainOptionsReply(h: HeaderMap)
    requires !IsPreflight(h)
    ensures var r := HandleOptions(h);
            && r.status == 200
            && r.body == NullBody
            && r.headers == map[Lower("Allow") := "GET, HEAD, POST, OPTIONS"]
  {
    var fields := [("Allow", AllowedMethods)];
    assert fields[..0] == [];
    assert FromRecord(fields) == SetHeader(map[], "Allow", AllowedMethods);
  }

  /** The preflight branch is taken exactly when all three headers are present:
      only then does the reply allow any origin. */
  lemma PreflightIffAllThree(h: HeaderMap)
    ensures GetHeader(HandleOptions(h).headers, "Access-Control-Allow-Origin").Some? <==>
              (GetHeader(h, "Origin").Some?
               && GetHeader(h, "Access-Control-Request-Method").Some?
               && GetHeader(h, "Access-Control-Request-Headers").Some?)
  {
    if IsPreflight(h) {
      PreflightReply(h);
    } else {
      PlainOptionsReply(h);
      assert |Lower("Allow")| != |Lower("Access-Control-Allow-Origin")|;
    }
  }

  /** The upstream is consulted on the outbound request and nothing else:
      two upstreams that answer it alike give the same outcome. */
  lemma UpstreamSeesOnlyOutbound(req: Request, u1: Outbound -> Outcome, u2: Outbound -> Outcome)
    requires Forwarded(req).Some? ==> u1(Forwarded(req).value) == u2(Forwarded(req).value)
    ensures ForwardSpec(req, u1) == ForwardSpec(req, u2)
  {
  }

  /** A target the origin split rejects makes the handler throw; nothing is fetched. */
  lemma InvalidTargetThrows(req: Request, u1: Outbound -> Outcome, u2: Outbound -> Outcome)
    requires Origin(Target(req.url)).None?
    ensures ForwardSpec(req, u1) == ForwardSpec(req, u2) == Thrown(InvalidUrl(Target(req.url)))
  {
  }

  /** A rejected upstream fetch is not caught: the same error reaches the caller. */
  lemma FetchFailurePropagates(req: Request, upstream: Outbound -> Outcome)
    requires Forwarded(req).Some? && upstream(Forwarded(req).value).Thrown?
    ensures ForwardSpec(req, upstream) == upstream(Forwarded(req).value)
  {
  }

  /** When the target is valid and the upstream replies, the handler replies:
      the reply allows any origin, whatever the upstream said, and otherwise
      is the upstream reply unchanged. */
  lemma ForwardedReplyAllowsAnyOrigin(req: Request, upstream: Outbound -> Outcome)
    requires Forwarded(req).Some? && upstream(Forwarded(req).value).Reply?
    ensures ForwardSpec(req, upstream).Reply?
    ensures var up, r := upstream(Forwarded(req).value).response, ForwardSpec(req, upstream).response;
            && GetHeader(r.headers, "Access-Control-Allow-Origin") == Some("*")
            && r.status == up.status && r.statusText == up.statusText && r.body == up.body
            && (forall n | Lower(n) != Lower("Access-Control-Allow-Origin") :: GetHeader(r.headers, n) == GetHeader(up.headers, n))
  {
  }

  /** Laying the overlay over a reply twice changes nothing more. */
  lemma OverlayIdempotent(up: Response)
    ensures Overlay(Overlay(up)) == Overlay(up)
  {
  }
}
