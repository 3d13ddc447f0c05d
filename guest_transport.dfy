/** The guest-side transport: `syncBridgeCall` and `asyncBridgeCall` POST
    the JSON of `{method, params}` to the bridge address and turn the XHR's
    outcome into a returned (resolved) value or a thrown (rejected) error. */
module GuestTransport {
  import opened Wrappers
  import opened JsValue
  import Decimal
  import BridgeCall
  import ProtocolHandler

  const BridgeUrl: string := "mp-bridge://sync"
  const HttpMethod: string := "POST"

  /** `JSON.stringify({ method, params })`, the request body of both calls. */
  function CallBody(stringify: Value -> string, methodName: Value, params: Value): string {
    stringify(Obj(map["method" := methodName, "params" := params]))
  }

  /** Both calls use the address the host's route check accepts, with or
      without the trailing '/' that URL normalisation may add, and the
      method under which the host reads the request body. */
  lemma BridgeUrlIsRouted(chunks: seq<string>)
    ensures ProtocolHandler.IsBridgeRoute(BridgeUrl) && ProtocolHandler.IsBridgeRoute(BridgeUrl + "/")
    ensures ProtocolHandler.RequestBody(ProtocolHandler.Request(BridgeUrl, HttpMethod, Some(chunks))) ==
              ProtocolHandler.Concat(chunks)
  {
    ProtocolHandler.RouteAcceptsExactly(BridgeUrl + "/");
  }

  /** What a blocking `xhr.send(...)` ends in: it throws, or it completes
      with a status, a status text and a response text. */
  datatype XhrResult = SendThrew(message: string) | Completed(status: int, statusText: string, responseText: string)

  /** What the caller of `syncBridgeCall` observes. */
  datatype Outcome = Returned(value: Value) | Raised(message: string)

  /** `'请求失败: ' + status + ' ' + statusText` */
  function RequestFailed(status: int, statusText: string): string {
    "请求失败: " + Decimal.IntToString(status) + " " + statusText
  }

  /** `syncBridgeCall`: status 200 returns the parsed response, whatever its
      `code`; any other status, a parse error or an exception from `send` is
      thrown to the caller. */
  function SyncBridgeCall(parse: string -> Result<Value>, x: XhrResult): (r: Outcome)
    ensures r.Returned? <==> x.Completed? && x.status == 200 && parse(x.responseText).Success?
    ensures r.Returned? ==> r.value == parse(x.responseText).value
    ensures x.SendThrew? ==> r == Raised(x.message)
    ensures x.Completed? && x.status != 200 ==> r == Raised(RequestFailed(x.status, x.statusText))
    ensures x.Completed? && x.status == 200 && parse(x.responseText).Failure? ==>
              r == Raised(parse(x.responseText).error)
  {
    match x
    case SendThrew(m) => Raised(m)
    case Completed(status, statusText, text) =>
      if status == 200 then
        match parse(text)
        case Success(v) => Returned(v)
        case Failure(m) => Raised(m)
      else Raised(RequestFailed(status, statusText))
  }

  /** The whole blocking call: it first logs `${method}`, outside the
      `try`, so a method whose conversion to text throws makes the call
      throw before a request is made; otherwise the outcome is that of the
      request. */
  function BlockingCall(parse: string -> Result<Value>, methodName: Value, x: XhrResult): (r: Outcome)
    ensures ConversionThrows(methodName) ==> r == Raised(ToPrimitiveError)
    ensures !ConversionThrows(methodName) ==> r == SyncBridgeCall(parse, x)
  {
    match ToString(methodName)
    case Failure(m) => Raised(m)
    case Success(_) => SyncBridgeCall(parse, x)
  }

  /** The state of the promise `asyncBridgeCall` returns. */
  datatype Settlement = Pending | Resolved(value: Value) | Rejected(reason: string)

  /** The events the XHR delivers to the promise executor. */
  datatype XhrEvent =
    | ReadyStateChange(readyState: int, status: int, statusText: string, responseText: string)
    | NetworkError
    | SendError(message: string)

  const ParseFailedPrefix: string := "解析响应失败: "
  const NetworkErrorMessage: string := "网络错误"

  /** What the handler of an event asks of the promise: nothing (`Pending`)
      before readyState 4, otherwise one resolve or reject. */
  function Reaction(parse: string -> Result<Value>, e: XhrEvent): (r: Settlement)
    ensures e.ReadyStateChange? && e.readyState != 4 <==> r.Pending?
    ensures r.Resolved? <==>
              e.ReadyStateChange? && e.readyState == 4 && e.status == 200 && parse(e.responseText).Success?
    ensures r.Resolved? ==> r.value == parse(e.responseText).value
    ensures e.ReadyStateChange? && e.readyState == 4 && e.status == 200 && parse(e.responseText).Failure? ==>
              r == Rejected(ParseFailedPrefix + parse(e.responseText).error)
    ensures e.ReadyStateChange? && e.readyState == 4 && e.status != 200 ==>
              r == Rejected(RequestFailed(e.status, e.statusText))
    ensures e.NetworkError? ==> r == Rejected(NetworkErrorMessage)
    ensures e.SendError? ==> r == Rejected(e.message)
  {
    match e
    case ReadyStateChange(readyState, status, statusText, text) =>
      if readyState != 4 then Pending
      else if status == 200 then
        match parse(text)
        case Success(v) => Resolved(v)
        case Failure(m) => Rejected(ParseFailedPrefix + m)
      else Rejected(RequestFailed(status, statusText))
    case NetworkError => Rejected(NetworkErrorMessage)
    case SendError(m) => Rejected(m)
  }

  /** A promise settles once: a resolve or reject after the first is ignored. */
  function Settle(current: Settlement, request: Settlement): (r: Settlement)
    ensures !current.Pending? ==> r == current
    ensures current.Pending? ==> r == request
  {
    if current.Pending? then request else current
  }

  /** The promise's state after a sequence of events. Once settled, no later
      event changes it. */
  function Run(parse: string -> Result<Value>, s: Settlement, events: seq<XhrEvent>): (r: Settlement)
    ensures !s.Pending? ==> r == s
    decreases |events|
  {
    if events == [] then s else Run(parse, Settle(s, Reaction(parse, events[0])), events[1..])
  }

  /** The first event whose handler settles the promise decides its state,
      even when `onreadystatechange` and `onerror` both fire. */
  lemma {:induction false} FirstSettlementWins(parse: string -> Result<Value>, events: seq<XhrEvent>, i: nat)
    requires i < |events|
    requires !Reaction(parse, events[i]).Pending?
    requires forall j :: 0 <= j < i ==> Reaction(parse, events[j]).Pending?
    ensures Run(parse, Pending, events) == Reaction(parse, events[i])
    decreases i
  {
    if i != 0 {
      assert Reaction(parse, events[0]).Pending?;
      FirstSettlementWins(parse, events[1..], i - 1);
    }
  }

  /** Events that do not reach readyState 4 leave the promise pending. */
  lemma {:induction false} PendingWithoutCompletion(parse: string -> Result<Value>, events: seq<XhrEvent>)
    requires forall j :: 0 <= j < |events| ==> Reaction(parse, events[j]).Pending?
    ensures Run(parse, Pending, events) == Pending
    decreases |events|
  {
    if events != [] {
      PendingWithoutCompletion(parse, events[1..]);
    }
  }

  /** The promise of one `asyncBridgeCall`, with the handlers the executor
      installs on its XHR. */
  class AsyncBridgeCall {
    var state: Settlement

    constructor ()
      ensures state == Pending
    {
      state := Pending;
    }

    method Resolve(v: Value)
      modifies this
      ensures state == Settle(old(state), Resolved(v))
    {
      if state.Pending? {
        state := Resolved(v);
      }
    }

    method Reject(reason: string)
      modifies this
      ensures state == Settle(old(state), Rejected(reason))
    {
      if state.Pending? {
        state := Rejected(reason);
      }
    }

    /** `xhr.onreadystatechange` */
    method OnReadyStateChange(parse: string -> Result<Value>, readyState: int, status: int,
                              statusText: string, responseText: string)
      modifies this
      ensures state == Settle(old(state), Reaction(parse, ReadyStateChange(readyState, status, statusText, responseText)))
    {
      if readyState == 4 {
        if status == 200 {
          var parsed := parse(responseText);
          if parsed.Success? {
            Resolve(parsed.value);
          } else {
            Reject(ParseFailedPrefix + parsed.error);
          }
        } else {
          Reject(RequestFailed(status, statusText));
        }
      }
    }

    /** `xhr.onerror` */
    method OnError(parse: string -> Result<Value>)
      modifies this
      ensures state == Settle(old(state), Reaction(parse, NetworkError))
    {
      Reject(NetworkErrorMessage);
    }

    /** The `catch` around `xhr.send(...)`. */
    method OnSendError(parse: string -> Result<Value>, message: string)
      modifies this
      ensures state == Settle(old(state), Reaction(parse, SendError(message)))
    {
      Reject(message);
    }
  }

  /** A status-500 failure envelope from the host never reaches the caller
      as an envelope: the blocking call throws and the promise rejects, with
      the status in the message. */
  lemma ServerErrorIsTransportFailure(host: BridgeCall.HostInfo, parse: string -> Result<Value>,
                                      stringify: Value -> string, req: ProtocolHandler.Request,
                                      statusText: string)
    requires ProtocolHandler.Respond(host, parse, stringify, req).status == 500
    ensures var resp := ProtocolHandler.Respond(host, parse, stringify, req);
            SyncBridgeCall(parse, Completed(resp.status, statusText, resp.body)) ==
              Raised(RequestFailed(500, statusText)) &&
            Reaction(parse, ReadyStateChange(4, resp.status, statusText, resp.body)) ==
              Rejected(RequestFailed(500, statusText))
  {
  }

  /** The host answers the JSON text of a call with status 200 and the
      envelope of the call as it reads it back. */
  lemma HostAnswersCall(host: BridgeCall.HostInfo, parse: string -> Result<Value>,
                        stringify: Value -> string, methodName: Value, params: Value)
    requires var sent := Obj(map["method" := methodName, "params" := params]);
             parse(CallBody(stringify, methodName, params)) == Success(JsonNormal(sent))
    ensures var req := ProtocolHandler.Request(BridgeUrl, HttpMethod, Some([CallBody(stringify, methodName, params)]));
            var env := BridgeCall.HandleBridgeCall(host, JsonNormal(methodName), JsonNormal(params)).ToValue();
            ProtocolHandler.Respond(host, parse, stringify, req) ==
              ProtocolHandler.Response(200, ProtocolHandler.SuccessHeaders, stringify(env))
  {
    var body := CallBody(stringify, methodName, params);
    assert [body][..0] == [];
    assert ProtocolHandler.Concat([body]) == body;
    HostDecodesCall(parse, stringify, methodName, params);
  }

  /** The host reads back the method and params of a call as JSON carries them. */
  lemma HostDecodesCall(parse: string -> Result<Value>, stringify: Value -> string,
                        methodName: Value, params: Value)
    requires var sent := Obj(map["method" := methodName, "params" := params]);
             parse(CallBody(stringify, methodName, params)) == Success(JsonNormal(sent))
    ensures BridgeCall.DecodeCall(parse, CallBody(stringify, methodName, params)) ==
              Success(BridgeCall.Call(JsonNormal(methodName), JsonNormal(params)))
  {
    var props := map["method" := methodName, "params" := params];
    NormalMember(props, "method");
    NormalMember(props, "params");
    var n := JsonNormal(Obj(props));
    assert Property(Obj(props), "method") == methodName && Property(Obj(props), "params") == params;
    assert BridgeCall.DecodeCall(parse, CallBody(stringify, methodName, params)) ==
             Success(BridgeCall.Call(Property(n, "method"), Property(n, "params")));
  }

  /** A blocking call that the host decodes returns the dispatcher's
      envelope, failure envelopes (code 1) included, as JSON carries it
      (unless the call throws before sending):
      the host dispatches the call as it reads it back from its JSON text,
      and the caller receives the envelope as it reads it back from the
      response, provided the parser reads back what the serialiser wrote. */
  lemma SyncCallReturnsEnvelope(host: BridgeCall.HostInfo, parse: string -> Result<Value>,
                                stringify: Value -> string, methodName: Value, params: Value,
                                statusText: string)
    requires var sent := Obj(map["method" := methodName, "params" := params]);
             parse(CallBody(stringify, methodName, params)) == Success(JsonNormal(sent))
    requires var env := BridgeCall.HandleBridgeCall(host, JsonNormal(methodName), JsonNormal(params)).ToValue();
             parse(stringify(env)) == Success(JsonNormal(env))
    ensures var req := ProtocolHandler.Request(BridgeUrl, HttpMethod, Some([CallBody(stringify, methodName, params)]));
            var resp := ProtocolHandler.Respond(host, parse, stringify, req);
            var env := BridgeCall.HandleBridgeCall(host, JsonNormal(methodName), JsonNormal(params)).ToValue();
            resp.status == 200 &&
            SyncBridgeCall(parse, Completed(resp.status, statusText, resp.body)) == Returned(JsonNormal(env)) &&
            BlockingCall(parse, methodName, Completed(resp.status, statusText, resp.body)) ==
              if ConversionThrows(methodName) then Raised(ToPrimitiveError) else Returned(JsonNormal(env))
  {
    HostAnswersCall(host, parse, stringify, methodName, params);
  }

  /** What the guest reads from the response to `getSystemInfo` with
      `detail: false`: code 0 and no `detail`. */
  lemma ReceivedWithoutDetail(host: BridgeCall.HostInfo)
    ensures var env := JsonNormal(BridgeCall.HandleBridgeCall(
                         host, Str("getSystemInfo"), Obj(map["detail" := Bool(false)])).ToValue());
            Property(env, "code") == Num(0) && Property(Property(env, "data"), "detail") == Undefined
  {
    var params := Obj(map["detail" := Bool(false)]);
    BridgeCall.SystemInfoContract(host, params);
    var e := BridgeCall.HandleBridgeCall(host, Str("getSystemInfo"), params);
    OkMemberReadBack(e, "detail", Undefined);
  }


  /** With `detail: true` the guest reads the architecture and release. */
  lemma ReceivedWithDetail(host: BridgeCall.HostInfo)
    ensures var env := JsonNormal(BridgeCall.HandleBridgeCall(
                         host, Str("getSystemInfo"), Obj(map["detail" := Bool(true)])).ToValue());
            Property(env, "code") == Num(0) &&
            Property(Property(env, "data"), "detail") ==
              Obj(map["arch" := Str(host.arch), "release" := Str(host.releaseName)])
  {
    var params := Obj(map["detail" := Bool(true)]);
    BridgeCall.SystemInfoContract(host, params);
    var e := BridgeCall.HandleBridgeCall(host, Str("getSystemInfo"), params);
    var detail := Obj(map["arch" := Str(host.arch), "release" := Str(host.releaseName)]);
    assert IsJson(detail);
    OkMemberReadBack(e, "detail", detail);
  }

  /** A member of a success envelope's data that JSON carries unchanged
      reaches the guest unchanged, under code 0; an undefined member is
      dropped and reads as undefined again. */
  lemma OkMemberReadBack(e: BridgeCall.Envelope, key: string, x: Value)
    requires e.Ok? && e.data.Obj? && key in e.data.props && e.data.props[key] == x
    requires IsJson(x) || x == Undefined
    ensures var env := JsonNormal(e.ToValue());
            Property(env, "code") == Num(0) && Property(Property(env, "data"), key) == x
  {
    var env := e.ToValue();
    NormalMember(env.props, "code");
    NormalMember(env.props, "data");
    NormalMember(e.data.props, key);
  }



  /** `calculateSum` with a non-numeric `a`: the guest reads code 1 and the
      message that both operands must be numbers. */
  lemma ReceivedNotNumbers(host: BridgeCall.HostInfo)
    ensures var env := JsonNormal(BridgeCall.HandleBridgeCall(
                         host, Str("calculateSum"), Obj(map["a" := Str("x"), "b" := Num(1)])).ToValue());
            Property(env, "code") == Num(1) && Property(env, "msg") == Str(BridgeCall.NotNumbersMessage)
  {
    var params := Obj(map["a" := Str("x"), "b" := Num(1)]);
    BridgeCall.CalculateSumContract(host, params);
    var e := BridgeCall.HandleBridgeCall(host, Str("calculateSum"), params);
    ErrReadBack(e);
  }

  /** A failure envelope reaches the guest with code 1 and its message. */
  lemma ErrReadBack(e: BridgeCall.Envelope)
    requires e.Err?
    ensures var env := JsonNormal(e.ToValue());
            Property(env, "code") == Num(1) && Property(env, "msg") == Str(e.msg)
  {
    NormalMember(e.ToValue().props, "code");
    NormalMember(e.ToValue().props, "msg");
  }

}
