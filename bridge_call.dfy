/** The bridge's call codec and operation registry as the custom-protocol
    host writes them: the response envelope, the destructuring of a parsed
    request body into `{method, params}`, and the dispatcher
    `handleBridgeCall`, which turns every call into an envelope and never
    throws. */
module BridgeCall {
  import opened Wrappers
  import opened JsValue

  /** The response envelope: `{code: 0, msg: 'ok', data}` on success,
      `{code: 1, msg}` (no `data`) on failure. */
  datatype Envelope = Ok(data: Value) | Err(msg: string) {

    function Code(): int {
      if Ok? then 0 else 1
    }

    /** The envelope as the JavaScript object that is serialised. */
    function ToValue(): (v: Value)
      ensures v.Obj? && "code" in v.props && "msg" in v.props
      ensures v.props["code"] == Num(Code())
      ensures ("data" in v.props) <==> v.props["code"] == Num(0)
      ensures Ok? ==> v.props["data"] == data && v.props["msg"] == Str("ok")
      ensures Err? ==> v.props["msg"] == Str(msg) && v.props.Keys == {"code", "msg"}
    {
      match this
      case Ok(d) => Obj(map["data" := d, "msg" := Str("ok"), "code" := Num(0)])
      case Err(m) => Obj(map["msg" := Str(m), "code" := Num(1)])
    }
  }

  /** Process metadata the host reports: `process.platform`,
      `process.versions.electron`, `process.versions.node`, `process.arch`
      and `process.release.name`. */
  datatype HostInfo = HostInfo(
    platform: string,
    electronVersion: string,
    nodeVersion: string,
    arch: string,
    releaseName: string)

  /** A decoded call envelope. */
  datatype Call = Call(methodName: Value, params: Value)

  /** Message of the TypeError thrown by `const { method, params } = JSON.parse(body)`
      when the parsed value is `null` or `undefined`. */
  function DestructureError(v: Value): string
    requires IsNullish(v)
  {
    "Cannot destructure property 'method' of 'JSON.parse(...)' as it is " +
      (if v.Null? then "null" else "undefined") + "."
  }

  /** `const { method, params } = JSON.parse(text)`: fails with the parser's
      message, or with a TypeError when the text parses to `null`; any other
      parsed value yields its `method` and `params` properties, `undefined`
      where absent. */
  function DecodeCall(parse: string -> Result<Value>, text: string): (r: Result<Call>)
    ensures parse(text).Failure? ==> r == Failure(parse(text).error)
    ensures parse(text).Success? && IsNullish(parse(text).value) ==>
              r == Failure(DestructureError(parse(text).value))
    ensures r.Success? <==> parse(text).Success? && !IsNullish(parse(text).value)
    ensures r.Success? && parse(text).value.Obj? ==>
              var props := parse(text).value.props;
              ("method" in props ==> r.value.methodName == props["method"]) &&
              ("method" !in props ==> r.value.methodName == Undefined) &&
              ("params" in props ==> r.value.params == props["params"]) &&
              ("params" !in props ==> r.value.params == Undefined)
    ensures r.Success? && !parse(text).value.Obj? ==> r.value == Call(Undefined, Undefined)
  {
    var parsed :- parse(text);
    if IsNullish(parsed) then Failure(DestructureError(parsed))
    else Success(Call(Property(parsed, "method"), Property(parsed, "params")))
  }

  const UnknownMethodPrefix: string := "未知方法: "
  const NotNumbersMessage: string := "参数必须为数字"
  const SumDoneMessage: string := "计算完成"
  const SlowDoneMessage: string := "耗时操作完成"

  const MinDelay: int := 100
  const MaxDelay: int := 3000

  predicate IsKnownMethod(methodName: Value) {
    methodName == Str("getSystemInfo") || methodName == Str("calculateSum") || methodName == Str("slowOperation")
  }

  /** The `getSystemInfo` case: platform and versions, and a `detail`
      object with `arch` and `release` only when `params.detail` is truthy.
      Reading `params.detail` throws when `params` is nullish. */
  function SystemInfo(host: HostInfo, params: Value): (r: Result<Value>)
    ensures r.Failure? <==> IsNullish(params)
    ensures r.Failure? ==> r.error == ReadError(params, "detail")
    ensures r.Success? ==>
              r.value.Obj? && r.value.props.Keys == {"platform", "electronVersion", "nodeVersion", "detail"}
  {
    var detail :- Get(params, "detail");
    Success(Obj(map[
      "platform" := Str(host.platform),
      "electronVersion" := Str(host.electronVersion),
      "nodeVersion" := Str(host.nodeVersion),
      "detail" := if Truthy(detail)
                  then Obj(map["arch" := Str(host.arch), "release" := Str(host.releaseName)])
                  else Undefined]))
  }

  /** The `calculateSum` case: both operands must have `typeof` "number". */
  function CalculateSum(params: Value): (r: Result<Value>)
    ensures IsNullish(params) ==> r == Failure(ReadError(params, "a"))
    ensures !IsNullish(params) ==>
              (r.Success? <==> IsNumber(Property(params, "a")) && IsNumber(Property(params, "b")))
    ensures !IsNullish(params) && r.Failure? ==> r.error == NotNumbersMessage
    ensures r.Success? ==> r.value.Obj? && r.value.props.Keys == {"a", "b", "sum", "message"}
  {
    var a :- Get(params, "a");
    // once `params.a` has been read, `params` is not nullish and `params.b` cannot throw
    var b := Property(params, "b");
    if !IsNumber(a) || !IsNumber(b) then Failure(NotNumbersMessage)
    else Success(Obj(map["a" := a, "b" := b, "sum" := AddNumbers(a, b), "message" := Str(SumDoneMessage)]))
  }

  /** `Math.min(Math.max(d || 100, 100), 3000)`: a number in [100, 3000],
      exactly 100 for every falsy `d`, the clamped value of whatever number a
      truthy `d` coerces to, and NaN when it coerces to none. The coercion
      throws for an object or array that cannot be converted. */
  function EffectiveDelay(d: Value): (r: Result<Value>)
    ensures r.Failure? <==> ConversionThrows(d)
    ensures r.Failure? ==> r.error == ToPrimitiveError
    ensures r.Success? ==> r.value.NaN? || (r.value.Num? && MinDelay <= r.value.n <= MaxDelay)
    ensures !Truthy(d) ==> r == Success(Num(MinDelay))
    ensures r.Success? ==> (r.value.NaN? <==> Truthy(d) && ToNumber(d).value.NaN?)
    ensures Truthy(d) && ToNumber(d).Success? && ToNumber(d).value.Num? ==>
              var n := ToNumber(d).value.n;
              r.Success? && r.value.Num? &&
              (n < MinDelay ==> r.value.n == MinDelay) &&
              (MinDelay <= n <= MaxDelay ==> r.value.n == n) &&
              (MaxDelay < n ==> r.value.n == MaxDelay)
  {
    var low :- MathMax(if Truthy(d) then d else Num(MinDelay), Num(MinDelay));
    MathMin(low, Num(MaxDelay))
  }

  /** The `slowOperation` case without its busy wait: reports the clamped delay. */
  function SlowOperation(params: Value): (r: Result<Value>)
    ensures IsNullish(params) ==> r == Failure(ReadError(params, "delay"))
    ensures !IsNullish(params) ==> (r.Failure? <==> ConversionThrows(Property(params, "delay")))
    ensures !IsNullish(params) && r.Failure? ==> r.error == ToPrimitiveError
    ensures r.Success? ==> r.value.Obj? && r.value.props.Keys == {"delay", "message"}
  {
    var d :- Get(params, "delay");
    var delay :- EffectiveDelay(d);
    Success(Obj(map["delay" := delay, "message" := Str(SlowDoneMessage)]))
  }

  /** The `default` case, `throw new Error(`未知方法: ${method}`)`: it always
      throws; building the message throws first for a method that cannot be
      converted to text. */
  function UnknownMethod(methodName: Value): (r: Result<Value>)
    ensures r.Failure?
    ensures ConversionThrows(methodName) ==> r.error == ToPrimitiveError
    ensures !ConversionThrows(methodName) ==> r.error == UnknownMethodPrefix + ToString(methodName).value
  {
    var text :- ToString(methodName);
    Failure(UnknownMethodPrefix + text)
  }

  /** The `try { … } catch (error) { … }` around every case: a thrown error
      becomes a failure envelope carrying its message. */
  function Wrap(result: Result<Value>): (e: Envelope)
    ensures e.Ok? <==> result.Success?
    ensures result.Success? ==> e.data == result.value
    ensures result.Failure? ==> e.msg == result.error
  {
    match result
    case Success(v) => Ok(v)
    case Failure(m) => Err(m)
  }

  /** `handleBridgeCall({ method, params })`: a `switch` on `method`
      (strict equality) over the three registered operations. A call
      succeeds only for one of them, with params that are not nullish. */
  function HandleBridgeCall(host: HostInfo, methodName: Value, params: Value): (e: Envelope)
    ensures e.Ok? ==> IsKnownMethod(methodName) && !IsNullish(params)
  {
    if methodName == Str("getSystemInfo") then Wrap(SystemInfo(host, params))
    else if methodName == Str("calculateSum") then Wrap(CalculateSum(params))
    else if methodName == Str("slowOperation") then Wrap(SlowOperation(params))
    else Wrap(UnknownMethod(methodName))
  }

  /** An unregistered method name yields code 1 and a message naming it,
      "undefined" for a missing one; a method that cannot be converted to
      text yields the conversion's TypeError instead. */
  lemma UnknownMethodFails(host: HostInfo, methodName: Value, params: Value)
    requires !IsKnownMethod(methodName)
    ensures var r := HandleBridgeCall(host, methodName, params);
            (ConversionThrows(methodName) ==> r == Err(ToPrimitiveError)) &&
            (!ConversionThrows(methodName) ==> r == Err(UnknownMethodPrefix + ToString(methodName).value)) &&
            (methodName.Str? ==> r == Err(UnknownMethodPrefix + methodName.s)) &&
            (methodName == Undefined ==> r == Err("未知方法: undefined"))
  {
    assert HandleBridgeCall(host, methodName, params) == Wrap(UnknownMethod(methodName));
    if methodName == Undefined {
      assert UnknownMethodPrefix + "undefined" == "未知方法: undefined";
    }
  }

  /** A registered method called without params fails with the TypeError of
      the first property it reads. */
  lemma MissingParamsFails(host: HostInfo, methodName: Value, params: Value)
    requires IsKnownMethod(methodName) && IsNullish(params)
    ensures var key := if methodName == Str("getSystemInfo") then "detail"
                       else if methodName == Str("calculateSum") then "a" else "delay";
            HandleBridgeCall(host, methodName, params) == Err(ReadError(params, key))
  {
  }

  /** `calculateSum`: fails with "参数必须为数字" exactly when `a` or `b` is
      not a number; otherwise echoes both and returns their sum. */
  lemma CalculateSumContract(host: HostInfo, params: Value)
    requires !IsNullish(params)
    ensures var a, b := Property(params, "a"), Property(params, "b");
            var r := HandleBridgeCall(host, Str("calculateSum"), params);
            (r.Ok? <==> IsNumber(a) && IsNumber(b)) &&
            (r.Err? ==> r.msg == NotNumbersMessage) &&
            (r.Ok? ==>
               r.data.Obj? && r.data.props.Keys == {"a", "b", "sum", "message"} &&
               r.data.props["a"] == a && r.data.props["b"] == b &&
               r.data.props["message"] == Str(SumDoneMessage) &&
               (a.Num? && b.Num? ==> r.data.props["sum"] == Num(a.n + b.n)) &&
               (a.NaN? || b.NaN? ==> r.data.props["sum"] == NaN))
  {
  }

  /** `slowOperation`: fails only when the requested delay is an object or
      array that cannot be converted to a number; otherwise reports the
      clamped delay, 100 for a falsy request. */
  lemma SlowOperationContract(host: HostInfo, params: Value)
    requires !IsNullish(params)
    ensures var r := HandleBridgeCall(host, Str("slowOperation"), params);
            var d := Property(params, "delay");
            (r.Ok? <==> !ConversionThrows(d)) &&
            (r.Err? ==> r.msg == ToPrimitiveError) &&
            (r.Ok? ==>
               r.data == Obj(map["delay" := EffectiveDelay(d).value, "message" := Str(SlowDoneMessage)])) &&
            (!Truthy(d) ==> r.Ok? && r.data.props["delay"] == Num(MinDelay))
  {
  }

  /** `getSystemInfo`: succeeds for any non-nullish params; `detail` is
      undefined unless `params.detail` is truthy, when it carries the
      architecture and release name. */
  lemma SystemInfoContract(host: HostInfo, params: Value)
    requires !IsNullish(params)
    ensures var r := HandleBridgeCall(host, Str("getSystemInfo"), params);
            r.Ok? && r.data.Obj? && "detail" in r.data.props &&
            r.data.props["platform"] == Str(host.platform) &&
            r.data.props["electronVersion"] == Str(host.electronVersion) &&
            r.data.props["nodeVersion"] == Str(host.nodeVersion) &&
            (!Truthy(Property(params, "detail")) <==> r.data.props["detail"] == Undefined) &&
            (Truthy(Property(params, "detail")) ==>
               r.data.props["detail"] == Obj(map["arch" := Str(host.arch), "release" := Str(host.releaseName)]))
  {
  }
}
