/** The edge middleware (packages/tiles-playground/middleware.ts): three
    path prefixes are forwarded to https://www.mcp.run, each with its own
    path rewriting and header defaults; any other path goes on to the app.
    The forwarding fetch is a function parameter. Header names are kept
    lower-case, as `Object.fromEntries(request.headers)` yields them. */
module Middleware {
  import opened Common

  const TargetOrigin := "https://www.mcp.run"
  const ProxyPrefix := "/api/proxy"
  const ServletsPrefix := "/api/servlets"
  const WasmPrefix := "/api/wasm/"

  /** `s.replace(pattern, replacement)` with a string pattern: only the
      first occurrence is replaced. */
  function ReplaceFirst(s: string, pattern: string, replacement: string): string
    decreases |s|
  {
    if StartsWith(s, pattern) then replacement + s[|pattern|..]
    else if |s| == 0 then s
    else [s[0]] + ReplaceFirst(s[1..], pattern, replacement)
  }

  datatype Route = ProxyRoute | ServletsRoute | WasmRoute | NoRoute

  /** The prefixes are tested in this order. */
  function RouteOf(path: string): Route
  {
    if StartsWith(path, ProxyPrefix) then ProxyRoute
    else if StartsWith(path, ServletsPrefix) then ServletsRoute
    else if StartsWith(path, WasmPrefix) then WasmRoute
    else NoRoute
  }

  /** No path starts with two of the prefixes, so the order of the tests
      does not change which route a path takes. */
  lemma PrefixesExclusive(path: string)
    ensures !(StartsWith(path, ProxyPrefix) && StartsWith(path, ServletsPrefix))
    ensures !(StartsWith(path, ProxyPrefix) && StartsWith(path, WasmPrefix))
    ensures !(StartsWith(path, ServletsPrefix) && StartsWith(path, WasmPrefix))
  {
    if StartsWith(path, ProxyPrefix) {
      assert path[5] == 'p';
    } else if StartsWith(path, ServletsPrefix) {
      assert path[5] == 's';
    }
  }

  /** The path asked of the target, for a forwarded route. */
  function TargetPath(path: string): (r: Option<string>)
    ensures r.None? <==> RouteOf(path) == NoRoute
  {
    match RouteOf(path)
    case ProxyRoute => Some(ReplaceFirst(path, ProxyPrefix, "/api"))
    case ServletsRoute => Some(path)
    case WasmRoute => Some("/api/c/" + ReplaceFirst(path, WasmPrefix, ""))
    case NoRoute => None
  }

  /** `/api/proxy<rest>` goes to `/api<rest>`, `/api/servlets...` is kept,
      and `/api/wasm/<rest>` goes to `/api/c/<rest>`. */
  lemma TargetPaths(path: string)
    ensures RouteOf(path) == ProxyRoute ==> TargetPath(path) == Some("/api" + path[|ProxyPrefix|..])
    ensures RouteOf(path) == ServletsRoute ==> TargetPath(path) == Some(path)
    ensures RouteOf(path) == WasmRoute ==> TargetPath(path) == Some("/api/c/" + path[|WasmPrefix|..])
  {
    match RouteOf(path)
    case ProxyRoute =>
      assert ReplaceFirst(path, ProxyPrefix, "/api") == "/api" + path[|ProxyPrefix|..];
    case WasmRoute =>
      assert ReplaceFirst(path, WasmPrefix, "") == "" + path[|WasmPrefix|..];
      assert "" + path[|WasmPrefix|..] == path[|WasmPrefix|..];
    case _ =>
  }

  /** From `/api/proxy/servlets/x` the target is `/api/servlets/x`. */
  lemma ProxyExample()
    ensures TargetPath("/api/proxy/servlets/x") == Some("/api/servlets/x")
    ensures TargetPath("/api/wasm/abc") == Some("/api/c/abc")
    ensures TargetPath("/api/other") == None
  {
    assert RouteOf("/api/proxy/servlets/x") == ProxyRoute by {
      assert "/api/proxy/servlets/x"[..10] == ProxyPrefix;
    }
    TargetPaths("/api/proxy/servlets/x");
    assert "/api" + "/api/proxy/servlets/x"[10..] == "/api/servlets/x";
    assert RouteOf("/api/wasm/abc") == WasmRoute by {
      assert "/api/wasm/abc"[5] == 'w';
      assert "/api/wasm/abc"[..10] == WasmPrefix;
    }
    TargetPaths("/api/wasm/abc");
    assert "/api/c/" + "/api/wasm/abc"[10..] == "/api/c/abc";
    assert !StartsWith("/api/other", ProxyPrefix) by { assert "/api/other"[5] == 'o'; }
    assert !StartsWith("/api/other", ServletsPrefix) by { assert "/api/other"[5] == 'o'; }
    assert !StartsWith("/api/other", WasmPrefix) by { assert "/api/other"[5] == 'o'; }
  }

  datatype IncomingRequest = IncomingRequest(
    path: string, httpMethod: string, headers: map<string, string>, body: Option<string>)

  datatype OutgoingRequest = OutgoingRequest(
    url: string, httpMethod: string, headers: map<string, string>, body: Option<string>)

  datatype UpstreamResponse = UpstreamResponse(
    status: int, statusText: string, headers: map<string, string>, body: Option<string>)

  /** The fetch (with reading the incoming body) either answers or throws. */
  datatype FetchResult = Got(response: UpstreamResponse) | FetchFailed

  datatype MiddlewareResult =
    | Relayed(response: UpstreamResponse)
    | Next
    | ProxyError(status: int, body: string, headers: map<string, string>)

  /** The headers sent on: the incoming ones, `host` forced, and on the
      proxy and servlets routes a JSON content type when none was sent. */
  function ForwardHeaders(route: Route, headers: map<string, string>): (h: map<string, string>)
    ensures "host" in h && h["host"] == "www.mcp.run"
    ensures route == ProxyRoute || route == ServletsRoute ==>
      "content-type" in h && h["content-type"] == (if "content-type" in headers && headers["content-type"] != ""
                                                     then headers["content-type"] else "application/json")
    ensures route == WasmRoute ==> ("content-type" in h <==> "content-type" in headers)
    ensures forall k :: k in headers && k != "host" && k != "content-type" ==> k in h && h[k] == headers[k]
  {
    var withType :=
      if route == ProxyRoute || route == ServletsRoute then
        headers["content-type" := if "content-type" in headers && headers["content-type"] != ""
                                  then headers["content-type"] else "application/json"]
      else headers;
    withType["host" := "www.mcp.run"]
  }

  /** The request sent to the target, for a forwarded route. */
  function Outgoing(req: IncomingRequest): Option<OutgoingRequest>
  {
    var route := RouteOf(req.path);
    match TargetPath(req.path)
    case None => None
    case Some(p) =>
      Some(OutgoingRequest(TargetOrigin + p, req.httpMethod, ForwardHeaders(route, req.headers),
                           if route == WasmRoute then None else req.body))
  }

  const ProxyFailedBody := "{\"error\":\"Proxy request failed\"}"

  function MiddlewareFor(req: IncomingRequest, fetch: OutgoingRequest -> FetchResult): MiddlewareResult
  {
    match Outgoing(req)
    case None => Next
    case Some(out) =>
      match fetch(out)
      case FetchFailed => ProxyError(500, ProxyFailedBody, map["content-type" := "application/json"])
      case Got(response) => Relayed(response)
  }

  /** Other paths go on untouched; a failure is a JSON 500; otherwise the
      target's status, text, headers and body come back unchanged, and
      only the wasm route drops the incoming body. */
  lemma MiddlewareOutcomes(req: IncomingRequest, fetch: OutgoingRequest -> FetchResult)
    ensures RouteOf(req.path) == NoRoute <==> MiddlewareFor(req, fetch) == Next
    ensures RouteOf(req.path) != NoRoute ==>
      var out := Outgoing(req).value;
      StartsWith(out.url, TargetOrigin + "/api")
      && out.httpMethod == req.httpMethod
      && (RouteOf(req.path) == WasmRoute ==> out.body.None?)
      && (RouteOf(req.path) != WasmRoute ==> out.body == req.body)
      && (fetch(out).FetchFailed? ==>
            MiddlewareFor(req, fetch) == ProxyError(500, ProxyFailedBody, map["content-type" := "application/json"]))
      && (fetch(out).Got? ==> MiddlewareFor(req, fetch) == Relayed(fetch(out).response))
  {
    TargetPaths(req.path);
    if RouteOf(req.path) != NoRoute {
      var p := TargetPath(req.path).value;
      assert StartsWith(p, "/api");
      var out := Outgoing(req).value;
      assert out.url == TargetOrigin + p;
      assert (TargetOrigin + p)[..|TargetOrigin + "/api"|] == TargetOrigin + "/api";
    }
  }

  /** The routes the middleware is configured to run on:
      `/api/proxy/:path*`, `/api/servlets/:path*` and `/api/wasm/:path*`. */
  predicate Matched(path: string)
  {
    path == "/api/proxy" || StartsWith(path, "/api/proxy/")
    || path == "/api/servlets" || StartsWith(path, "/api/servlets/")
    || path == "/api/wasm" || StartsWith(path, "/api/wasm/")
  }

  /** Every configured path but `/api/wasm` itself is forwarded; that one
      fails the `/api/wasm/` test and goes on to the app. */
  lemma MatchedPathsForwarded(path: string)
    requires Matched(path) && path != "/api/wasm"
    ensures RouteOf(path) != NoRoute
  {
    if StartsWith(path, "/api/proxy/") {
      assert path[..10] == "/api/proxy/"[..10];
    } else if StartsWith(path, "/api/servlets/") {
      assert path[..13] == "/api/servlets/"[..13];
    }
  }

  lemma BareWasmPathPassesThrough()
    ensures Matched("/api/wasm") && RouteOf("/api/wasm") == NoRoute
  {
    assert !StartsWith("/api/wasm", ProxyPrefix) by { assert "/api/wasm"[5] == 'w'; }
    assert !StartsWith("/api/wasm", ServletsPrefix) by { assert "/api/wasm"[5] == 'w'; }
  }
}
