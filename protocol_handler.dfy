/** The custom-protocol request handler registered for the `mp-bridge`
    scheme: route check, body read chunk by chunk, decode, dispatch, and a
    200 response with CORS headers, a 500 response with a failure envelope,
    or a 404. */
module ProtocolHandler {
  import opened Wrappers
  import opened JsValue
  import opened BridgeCall

  /** The one accepted address, compared after one trailing '/' is removed. */
  const BridgeRoute: string := "mp-bridge://sync"

  /** An incoming request. The optional body is the sequence of text chunks
      its stream yields, in order; `None` is a request without a body. */
  datatype Request = Request(url: string, httpMethod: string, body: Option<seq<string>>)

  datatype Response = Response(status: int, headers: map<string, string>, body: string)

  const JsonContentType: string := "application/json"

  /** Headers of a successful response: JSON content and a CORS policy that
      admits any origin, the common methods and two request headers. */
  const SuccessHeaders: map<string, string> := map[
    "Content-Type" := JsonContentType,
    "Access-Control-Allow-Origin" := "*",
    "Access-Control-Allow-Methods" := "GET, POST, PUT, DELETE, OPTIONS",
    "Access-Control-Allow-Headers" := "Content-Type, Authorization"]

  /** Headers of a status-500 response: JSON content and any origin. */
  const ErrorHeaders: map<string, string> := map[
    "Content-Type" := JsonContentType,
    "Access-Control-Allow-Origin" := "*"]

  /** The content type the `Response` constructor sets for a string body
      when the caller passes no headers. */
  const TextContentType: string := "text/plain;charset=UTF-8"

  /** The status-404 response. The handler passes only the status; the
      header is the constructor's default for its string body. */
  const NotFound: Response := Response(404, map["Content-Type" := TextContentType], "Not Found")

  /** `url.replace(/\/$/, '')`: drops one trailing '/', if there is one. */
  function StripTrailingSlash(url: string): (r: string)
    ensures url != [] && url[|url| - 1] == '/' ==> r + "/" == url
    ensures url == [] || url[|url| - 1] != '/' ==> r == url
  {
    if url != [] && url[|url| - 1] == '/' then url[..|url| - 1] else url
  }

  predicate IsBridgeRoute(url: string) {
    StripTrailingSlash(url) == BridgeRoute
  }

  /** Exactly two addresses pass the route check: the bridge address and the
      same address with one trailing '/'. */
  lemma {:induction false} RouteAcceptsExactly(url: string)
    ensures IsBridgeRoute(url) <==> url == BridgeRoute || url == BridgeRoute + "/"
  {
    if url == BridgeRoute + "/" {
      assert url[..|url| - 1] == BridgeRoute;
    }
    if IsBridgeRoute(url) && url != BridgeRoute {
      assert url[..|url| - 1] == BridgeRoute;
    }
  }

  /** One slash is tolerated, two are not. */
  lemma RouteExamples()
    ensures IsBridgeRoute("mp-bridge://sync") && IsBridgeRoute("mp-bridge://sync/")
    ensures !IsBridgeRoute("mp-bridge://sync//")
  {
    RouteAcceptsExactly("mp-bridge://sync//");
  }

  /** The chunks joined in the order they were read. */
  function Concat(chunks: seq<string>): string {
    if chunks == [] then "" else Concat(chunks[..|chunks| - 1]) + chunks[|chunks| - 1]
  }

  /** Reading the stream in two parts and joining the parts gives the whole body. */
  lemma {:induction false} ConcatAppend(a: seq<string>, b: seq<string>)
    ensures Concat(a + b) == Concat(a) + Concat(b)
  {
    if b != [] {
      assert (a + b)[..|a + b| - 1] == a + b[..|b| - 1];
      ConcatAppend(a, b[..|b| - 1]);
    } else {
      assert a + b == a;
    }
  }

  /** Each chunk appears once, in stream order, between the chunks read
      before it and those read after it. */
  lemma {:induction false} ChunkInPlace(chunks: seq<string>, k: nat)
    requires k < |chunks|
    ensures Concat(chunks) == Concat(chunks[..k]) + chunks[k] + Concat(chunks[k + 1..])
  {
    var before, here, after := chunks[..k], [chunks[k]], chunks[k + 1..];
    assert chunks == before + here + after;
    ConcatAppend(before + here, after);
    ConcatAppend(before, here);
    assert here[..0] == [];
    assert Concat(here) == Concat([]) + chunks[k];
  }

  /** The text handed to the parser: the whole stream for a POST with a
      body, the empty text otherwise. */
  function RequestBody(req: Request): string {
    if req.httpMethod == "POST" && req.body.Some? then Concat(req.body.value) else ""
  }

  /** What the handler answers to a request, as a function of the request. */
  function Respond(host: HostInfo, parse: string -> Result<Value>, stringify: Value -> string,
                   req: Request): (resp: Response)
    ensures resp.status == 200 || resp.status == 404 || resp.status == 500
    ensures resp.status == 404 <==> !IsBridgeRoute(req.url)
    ensures resp.status == 404 ==> resp == NotFound
  {
    if !IsBridgeRoute(req.url) then NotFound
    else
      match DecodeCall(parse, RequestBody(req))
      case Failure(m) => Response(500, ErrorHeaders, stringify(Err(m).ToValue()))
      case Success(call) =>
        Response(200, SuccessHeaders, stringify(HandleBridgeCall(host, call.methodName, call.params).ToValue()))
  }

  /** The handler: rejects any other address before touching the body,
      drains the body stream chunk by chunk, then decodes and dispatches. */
  method HandleRequest(host: HostInfo, parse: string -> Result<Value>, stringify: Value -> string,
                       req: Request) returns (resp: Response)
    ensures resp == Respond(host, parse, stringify, req)
  {
    var url := StripTrailingSlash(req.url);
    if url != BridgeRoute {
      return NotFound;
    }
    var requestBody := "";
    if req.httpMethod == "POST" && req.body.Some? {
      var chunks := req.body.value;
      var i := 0;
      while i < |chunks|
        invariant 0 <= i <= |chunks|
        invariant requestBody == Concat(chunks[..i])
      {
        assert chunks[..i + 1][..i] == chunks[..i];
        requestBody := requestBody + chunks[i];
        i := i + 1;
      }
      assert chunks[..i] == chunks;
    }
    var decoded := DecodeCall(parse, requestBody);
    if decoded.Failure? {
      return Response(500, ErrorHeaders, stringify(Err(decoded.error).ToValue()));
    }
    var result := HandleBridgeCall(host, decoded.value.methodName, decoded.value.params);
    resp := Response(200, SuccessHeaders, stringify(result.ToValue()));
  }

  /** Every response has status 200, 404 or 500. A request to any other
      address gets the 404 whatever its body; status 500 happens exactly when
      the body does not parse or parses to null; every other accepted
      request gets 200 with the dispatcher's envelope and the CORS headers. */
  lemma StatusDecision(host: HostInfo, parse: string -> Result<Value>, stringify: Value -> string,
                       req: Request)
    ensures var resp := Respond(host, parse, stringify, req);
            var parsed := parse(RequestBody(req));
            (!IsBridgeRoute(req.url) ==> resp == NotFound) &&
            (IsBridgeRoute(req.url) ==>
               (resp.status == 500 <==> parsed.Failure? || IsNullish(parsed.value)) &&
               (resp.status == 500 || resp.status == 200)) &&
            (resp.status == 500 ==>
               resp.headers == ErrorHeaders &&
               resp.body == stringify(Err(DecodeCall(parse, RequestBody(req)).error).ToValue())) &&
            (resp.status == 200 ==>
               var call := DecodeCall(parse, RequestBody(req)).value;
               resp.headers == SuccessHeaders &&
               resp.body == stringify(HandleBridgeCall(host, call.methodName, call.params).ToValue()))
  {
  }

  /** An operation failure (unknown method, bad params) is still status 200:
      only a body that cannot be decoded yields 500. */
  lemma OperationFailureIsStill200(host: HostInfo, parse: string -> Result<Value>,
                                   stringify: Value -> string, req: Request)
    requires IsBridgeRoute(req.url)
    requires parse(RequestBody(req)).Success?
    requires !IsNullish(parse(RequestBody(req)).value)
    ensures Respond(host, parse, stringify, req).status == 200
  {
  }

  /** A request that is not a POST, or has no body, is parsed as the empty
      text; a parser that rejects it, as JSON.parse does, makes it a 500
      carrying the parser's message. */
  lemma EmptyBodyFails(host: HostInfo, parse: string -> Result<Value>, stringify: Value -> string,
                       req: Request)
    requires IsBridgeRoute(req.url)
    requires req.httpMethod != "POST" || req.body.None?
    requires parse("").Failure?
    ensures Respond(host, parse, stringify, req) ==
              Response(500, ErrorHeaders, stringify(Err(parse("").error).ToValue()))
  {
  }
}
