# CORS header proxy: a Dafny model of its decision procedure

The repository is a Cloudflare Worker. Requests under `/corsproxy/` are relayed
to a target API named by the `apiurl` query parameter, or to a compiled-in demo
API when that parameter is absent. The reply comes back with
`Access-Control-Allow-Origin: *`. OPTIONS requests are answered locally. Every
other path gets a static demo page.

The model covers the handler's logic. The network does not appear in it:
- The `fetch` call to the upstream is a parameter, `upstream: Outbound -> Outcome`.
  It either replies with a response or throws.
- Header lists are maps keyed by the ASCII-lower-cased header name
  (`HttpHeaders.HeaderMap`), so names compare case-insensitively.
  `SetHeader` replaces a value and never appends.
- The mutable `Headers` object that `handleRequest` changes in place is the
  class `HttpHeaders.Headers`. Its `Set` method updates the `entries` map.
- `handleRequest` and the top-level dispatch are methods (`CorsProxy.HandleRequest`,
  `CorsProxy.Fetch`). Each is proved equal to a specification function
  (`ForwardSpec`, `FetchSpec`). The laws in module `ProxyLaws` are proved about
  those functions.

Modules:
- `Wrappers`: the Option type.
- `HttpHeaders`: header lists.
- `Urls`: query lookup and URL origin.
- `CorsProxy`: constants, requests, responses, dispatch, OPTIONS handling, forwarding.
- `ProxyLaws`: routing, OPTIONS, target, outbound-request and overlay laws.

The model follows the code where the repository's own description of its
behaviour differs from it:
- Only GET, HEAD and POST are forwarded.
- The 405 reply has no body and no headers.
- A preflight needs all three of `Origin`, `Access-Control-Request-Method` and
  `Access-Control-Request-Headers`.
- OPTIONS replies keep the default status 200, not 204.
- The allowed-methods value is `GET,HEAD,POST,OPTIONS`.
- Forwarded replies get only `Access-Control-Allow-Origin`.
- There is no try/catch. A failing `fetch` or an unparsable target propagates
  as a thrown error (`Thrown`), not as a 500 reply.
- The outbound request keeps the inbound body whatever the method. The code
  passes the inbound request as the init of `new Request` and never drops the body.

## Model

| member | source | states |
|---|---|---|
| `HttpHeaders.GetHeader` | src/index.ts:47-49 | `headers.get`: none exactly when the name's lower-cased form is not stored, otherwise the value stored under it |
| `HttpHeaders.SetHeader` | src/index.ts:32 | `headers.set`: the name then reads the new value in any letter case, every other name reads as before, and the name set is the old one plus this name |
| `HttpHeaders.GetHeaderCaseInsensitive` | src/index.ts:47-49 | two spellings of a name that differ only in letter case read the same header |
| `HttpHeaders.SetHeaderIdempotent` | src/index.ts:37 | setting the same header to the same value twice equals setting it once |
| `HttpHeaders.SetHeaderLastWins` | src/index.ts:32 | of two sets of one name, the later replaces the earlier outright (no append) |
| `HttpHeaders.Lower` | src/index.ts:47-49 | the stored form of a header name has the same length, is ASCII-lower-cased character by character and has no upper-case letter |
| `HttpHeaders.LowerIdempotent` | src/index.ts:47-49 | lower-casing a stored name again changes nothing |
| `HttpHeaders.LowerFixesLowerName` | src/index.ts:17 | a name written in lower case, such as `content-type`, is stored as written |
| `HttpHeaders.FromRecord` | src/index.ts:52-57 | a header list built from an object literal: the last field's name reads the last field's value |
| `HttpHeaders.FromRecordKeys` | src/index.ts:51-58 | a header list built from a record holds exactly the record's field names |
| `HttpHeaders.FromRecordValues` | src/index.ts:51-58 | when a record's field names are distinct, each name reads its own field's value |
| `HttpHeaders.FromRecordFour` | src/index.ts:51-58 | a four-field record gives exactly its four entries, entered in order |
| `HttpHeaders.Headers.constructor` | src/index.ts:31 | copying a header list into a fresh `Headers` object keeps every entry |
| `HttpHeaders.Headers.Set` | src/index.ts:32 | in-place `set` leaves the object holding `SetHeader` of its old entries |
| `Urls.FirstNamed` | src/index.ts:26 | the position of the first query pair with the given name: no earlier pair has it, and the one found does |
| `Urls.SearchParamsGet` | src/index.ts:26 | `searchParams.get` is none exactly when no pair has the name; otherwise it is the value of the first pair with that name |
| `Urls.Origin` | src/index.ts:32 | `new URL(t).origin`, when present, is the prefix of `t` up to the end of a non-empty authority after `scheme://`: the end of `t` or the first `/`, `?` or `#` after `://` |
| `Urls.OriginAt` | src/index.ts:32 | whenever `t` splits as `scheme://authority…`, the origin is present and is `t` up to the end of the authority |
| `Urls.OriginPresentIff` | src/index.ts:32 | the origin is present if and only if `t` splits as `scheme://authority…` |
| `Urls.OriginOfSplit` | src/index.ts:32 | the origin of `scheme://authority` followed by nothing or by a path, query or fragment is `scheme://authority` |
| `Urls.OriginIdempotent` | src/index.ts:32 | the origin of an origin is itself |
| `CorsProxy.ApiUrlOrigin` | src/index.ts:10 | the fallback `API_URL` has origin `https://examples.cloudflareworkers.com`, so a request without `apiurl` reaches the upstream |
| `CorsProxy.Classify` | src/index.ts:69-87 | demo page exactly outside `/corsproxy/`; inside it, options exactly for OPTIONS, forward exactly for GET, HEAD and POST, and reject for every other method |
| `CorsProxy.RawHtmlResponse` | src/index.ts:14-19 | status 200, the given page as body, and exactly one header, `content-type: text/html;charset=UTF-8` |
| `CorsProxy.IsPreflight` | src/index.ts:46-50 | the request is a preflight exactly when `Origin`, `Access-Control-Request-Method` and `Access-Control-Request-Headers` are all stored |
| `CorsProxy.HandleOptions` | src/index.ts:45-66 | both OPTIONS replies have status 200, an empty status text and a null body |
| `CorsProxy.MethodNotAllowed` | src/index.ts:80-83 | status 405, status text `Method Not Allowed`, null body, no headers |
| `CorsProxy.Target` | src/index.ts:26-29 | the target is `API_URL` when no `apiurl` pair exists, otherwise the value of the first `apiurl` pair |
| `CorsProxy.Forwarded` | src/index.ts:31-32 | the outbound request goes to the target and keeps the inbound method, body and headers, except that `Origin` becomes the target's origin; it is none exactly when the target has no origin |
| `CorsProxy.Overlay` | src/index.ts:34-37 | the reply keeps the upstream status, status text and body, and every upstream header except `Access-Control-Allow-Origin`, which becomes `*`; no other header is added |
| `CorsProxy.ForwardSpec` | src/index.ts:24-43 | a valid target whose upstream replies gets a reply, and a reply comes only that way and carries `Access-Control-Allow-Origin: *`; an error is either the rejected target's (only when the split rejects it) or the upstream's own |
| `CorsProxy.FetchSpec` | src/index.ts:69-87 | only a forwarded request can throw; every other request gets a reply whose body is null or the demo page |
| `CorsProxy.HandleRequest` | src/index.ts:24-43 | the step-by-step handler, with in-place header updates on fresh copies, settles to exactly `ForwardSpec` |
| `CorsProxy.Fetch` | src/index.ts:69-87 | the top-level handler settles to exactly `FetchSpec` |
| `ProxyLaws.DemoPageOutsidePrefix` | src/index.ts:69-70 | outside `/corsproxy/` any method gets status 200, the demo page and only `content-type: text/html;charset=UTF-8` |
| `ProxyLaws.NoTrailingSlashIsDemoPage` | src/index.ts:85-86 | `/corsproxy` without the trailing slash gets the demo page |
| `ProxyLaws.OptionsNeverForwarded` | src/index.ts:71-72 | under the prefix OPTIONS gets `handleOptions`' reply, which does not depend on the upstream |
| `ProxyLaws.ForwardedMethods` | src/index.ts:73-78 | under the prefix a request is forwarded exactly when its method is GET, HEAD or POST |
| `ProxyLaws.OtherMethodsRejected` | src/index.ts:79-84 | under the prefix any other method gets 405 `Method Not Allowed` with a null body and no CORS headers |
| `ProxyLaws.PreflightNamesDistinct` | src/index.ts:3-7 | the four preflight header names stay distinct once lower-cased |
| `ProxyLaws.PreflightReply` | src/index.ts:46-58 | a preflight reply has exactly `Access-Control-Allow-Origin: *`, `Access-Control-Allow-Methods: GET,HEAD,POST,OPTIONS`, `Access-Control-Max-Age: 86400` and `Access-Control-Allow-Headers` echoing the request's `Access-Control-Request-Headers`, and a null body |
| `ProxyLaws.PlainOptionsReply` | src/index.ts:59-64 | without all three request headers the reply has a null body and exactly one header, `Allow: GET, HEAD, POST, OPTIONS` |
| `ProxyLaws.PreflightIffAllThree` | src/index.ts:46-50 | an OPTIONS reply allows any origin if and only if `Origin`, `Access-Control-Request-Method` and `Access-Control-Request-Headers` are all present |
| `ProxyLaws.UpstreamSeesOnlyOutbound` | src/index.ts:31-33 | the upstream is consulted on the outbound request only: two upstreams that answer it alike give the same outcome |
| `ProxyLaws.InvalidTargetThrows` | src/index.ts:31-32 | a target the origin split rejects makes the handler throw without consulting the upstream |
| `ProxyLaws.FetchFailurePropagates` | src/index.ts:33 | a rejected `fetch` is not caught: the caller gets the same error |
| `ProxyLaws.ForwardedReplyAllowsAnyOrigin` | src/index.ts:33-37 | when the target is valid and the upstream replies, the handler replies; the reply carries `Access-Control-Allow-Origin: *` whatever the upstream sent, and is otherwise the upstream reply unchanged |
| `ProxyLaws.OverlayIdempotent` | src/index.ts:37 | overlaying twice gives the same reply as overlaying once |

## Left out

- The network call `fetch` is the `upstream` parameter. Connection behaviour, redirects and timeouts are outside the model.
- Bodies are values passed through unchanged (`NullBody` or `Text`). Streaming of bodies through `Request`/`Response` is not modelled.
- `async`/`await` scheduling is not modelled. Each invocation is independent and settles to one `Outcome`.
- URL parsing. An inbound URL arrives as its path and its already-decoded query pairs. Percent-decoding and `+`-to-space decoding are not modelled.
- `Urls.Origin`: the origin is taken by a plain split, `scheme://authority`. The model does not lower-case the host, drop default ports or user info, or give the opaque `null` origin of non-special schemes. The split does no host parsing at all: it does not turn `\` into `/` in special schemes (for `https://a.com\x` the split gives `https://a.com\x`, the parser `https://a.com`), does not remove tabs and newlines inside the string, does not IDNA-encode Unicode hosts and does not normalise IPv4 number forms. It does not reject every string the URL standard rejects. In the other direction it rejects some strings the URL standard accepts, such as `https:/a.com` (special schemes tolerate missing slashes) and ` https://a.com` (surrounding spaces are stripped); for those targets the program would call `fetch`, while the model throws `InvalidUrl`. Failure to split stands for the TypeError that `new Request`/`new URL` throw.
- The text of `DEMO_PAGE`. It is elided in the program itself (`` `...` ``) and is an opaque constant here.
- Repeated header fields. A `HeaderMap` holds one value per name, the one `get` returns, so an upstream reply with several lines of one field (several `Set-Cookie` lines, say) cannot be expressed; `new Response(response.body, response)` keeps each line.
- Normalisation of header values (stripping surrounding whitespace) by `Headers.set` is not modelled.
- `HttpHeaders.FromRecord`: a record whose field names differ only in letter case would have their values combined by the runtime's `Headers` initialiser. The model lets the later field replace the earlier. The program's records have no such fields.
- Request method normalisation by the runtime (e.g. `get` to `GET`) is not modelled. The method is compared exactly as it arrives, as the code does.
- The runtime's `new Response` check on upstream statuses (a status outside 200-599 or a null-body status with a body would throw) is not modelled. The upstream status is copied as is.
- Request fields other than URL, method, headers and body that `new Request(apiUrl, request)` copies (redirect mode, signal, and so on) are not modelled.
