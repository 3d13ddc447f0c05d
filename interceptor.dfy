/** The pre-send interceptor of the webview session: its own copy of the
    dispatcher (`handle`), and the `onBeforeRequest` listener that takes the
    body from the first upload element, decodes and dispatches it, writes the
    envelope to `<tmpdir>/<request id>.json` and redirects the request to
    that file, or cancels the request. */
module Interceptor {
  import opened Wrappers
  import opened JsValue
  import opened BridgeCall
  import Decimal

  /** `handle({ method, params })`, the second copy of the dispatcher: the
      same `switch` over the same three cases, so it agrees with
      `handleBridgeCall` on every call. */
  function Handle(host: HostInfo, methodName: Value, params: Value): (e: Envelope)
    ensures e == HandleBridgeCall(host, methodName, params)
  {
    if methodName == Str("getSystemInfo") then Wrap(SystemInfo(host, params))
    else if methodName == Str("calculateSum") then Wrap(CalculateSum(params))
    else if methodName == Str("slowOperation") then Wrap(SlowOperation(params))
    else Wrap(UnknownMethod(methodName))
  }

  /** One element of `details.uploadData`; `bytes` is absent for an element
      that stands for a file or a blob. The bytes are modelled as their
      decoded text. */
  datatype UploadElement = UploadElement(bytes: Option<string>)

  /** The request details the listener receives. */
  datatype Details = Details(id: nat, url: string, uploadData: Option<seq<UploadElement>>)

  /** The single answer given to the listener's callback. */
  datatype Answer = Redirect(redirectURL: string) | Cancel

  /** The externally visible effects of the listener, in order. */
  datatype Effect = WroteFile(path: string, content: string) | Answered(answer: Answer)

  /** `${details.id}.json` */
  function FileName(id: nat): string {
    Decimal.NatToString(id) + ".json"
  }

  /** `path.join(dir, name)` for a name without separators. */
  function PathJoin(dir: string, name: string): string {
    if dir == [] then name
    else if dir[|dir| - 1] == '/' then dir + name
    else dir + "/" + name
  }

  function ArtifactPath(tmpdir: string, id: nat): string {
    PathJoin(tmpdir, FileName(id))
  }

  lemma PathJoinInjective(dir: string, a: string, b: string)
    ensures PathJoin(dir, a) == PathJoin(dir, b) ==> a == b
  {
    var prefix := if dir == [] then "" else if dir[|dir| - 1] == '/' then dir else dir + "/";
    assert PathJoin(dir, a) == prefix + a && PathJoin(dir, b) == prefix + b;
    if PathJoin(dir, a) == PathJoin(dir, b) {
      assert a == (prefix + a)[|prefix|..];
      assert b == (prefix + b)[|prefix|..];
    }
  }

  /** Distinct request ids give distinct artifact paths. */
  lemma ArtifactPathsDistinct(tmpdir: string, i: nat, j: nat)
    ensures i != j ==> ArtifactPath(tmpdir, i) != ArtifactPath(tmpdir, j)
  {
    PathJoinInjective(tmpdir, FileName(i), FileName(j));
    if FileName(i) == FileName(j) {
      var si, sj := Decimal.NatToString(i), Decimal.NatToString(j);
      assert |si| == |sj|;
      assert si == FileName(i)[..|si|];
      assert sj == FileName(j)[..|sj|];
      Decimal.NatToStringInjective(i, j);
    }
  }

  /** The body text, `None` when `uploadData[0].bytes.toString()` throws
      because the first element has no bytes. */
  function ExtractBody(details: Details): (r: Option<string>)
    ensures details.uploadData.None? || details.uploadData.value == [] ==> r == Some("")
    ensures details.uploadData.Some? && details.uploadData.value != [] ==>
              r == details.uploadData.value[0].bytes
  {
    if details.uploadData.Some? && |details.uploadData.value| > 0
    then details.uploadData.value[0].bytes
    else Some("")
  }

  /** The effects of the `try` block for a body text: decode, dispatch,
      write, redirect; any failure in it (decode or write) cancels. */
  function AnswerBody(host: HostInfo, parse: string -> Result<Value>, stringify: Value -> string,
                      tmpdir: string, unwritable: set<string>, id: nat, body: string): (effects: seq<Effect>)
    ensures AnsweredOnceAtEnd(effects)
    ensures WritesOnly(effects, ArtifactPath(tmpdir, id))
  {
    match DecodeCall(parse, body)
    case Failure(_) => [Answered(Cancel)]
    case Success(call) =>
      var path := ArtifactPath(tmpdir, id);
      if path in unwritable then [Answered(Cancel)]
      else [WroteFile(path, stringify(Handle(host, call.methodName, call.params).ToValue())),
            Answered(Redirect("file://" + path))]
  }

  /** The effects of one intercepted request, as written: the body is read
      before the `try`, so a first upload element without bytes ends the
      listener with no effect at all. */
  function Intercept(host: HostInfo, parse: string -> Result<Value>, stringify: Value -> string,
                     tmpdir: string, unwritable: set<string>, details: Details): (effects: seq<Effect>)
    ensures ExtractBody(details).None? ==> effects == []
    ensures ExtractBody(details).Some? ==> AnsweredOnceAtEnd(effects)
    ensures WritesOnly(effects, ArtifactPath(tmpdir, details.id))
  {
    match ExtractBody(details)
    case None => []
    case Some(body) => AnswerBody(host, parse, stringify, tmpdir, unwritable, details.id, body)
  }

  /** The same listener with the body read inside the `try`: an unreadable
      first element is cancelled like any other failure. */
  function GuardedIntercept(host: HostInfo, parse: string -> Result<Value>, stringify: Value -> string,
                            tmpdir: string, unwritable: set<string>, details: Details): seq<Effect>
  {
    match ExtractBody(details)
    case None => [Answered(Cancel)]
    case Some(body) => AnswerBody(host, parse, stringify, tmpdir, unwritable, details.id, body)
  }

  /** The temporary directory after a sequence of effects. */
  function ApplyWrites(files: map<string, string>, effects: seq<Effect>): map<string, string>
    decreases |effects|
  {
    if effects == [] then files
    else
      var next := if effects[0].WroteFile? then files[effects[0].path := effects[0].content] else files;
      ApplyWrites(next, effects[1..])
  }

  lemma ApplyWritesOfAnswers(files: map<string, string>, path: string, content: string, answer: Answer)
    ensures ApplyWrites(files, [Answered(answer)]) == files
    ensures ApplyWrites(files, [WroteFile(path, content), Answered(answer)]) == files[path := content]
  {
    assert [Answered(answer)][1..] == [];
    var both := [WroteFile(path, content), Answered(answer)];
    assert both[1..] == [Answered(answer)];
    assert ApplyWrites(files, both) == ApplyWrites(files[path := content], [Answered(answer)]);
  }

  /** The callback was called exactly once, as the last effect. */
  predicate AnsweredOnceAtEnd(effects: seq<Effect>) {
    |effects| > 0 && effects[|effects| - 1].Answered? &&
    forall i :: 0 <= i < |effects| - 1 ==> !effects[i].Answered?
  }

  /** Every file the effects write is at `path`. */
  predicate WritesOnly(effects: seq<Effect>, path: string) {
    forall i :: 0 <= i < |effects| && effects[i].WroteFile? ==> effects[i].path == path
  }

  /** The three outcomes of a request whose body can be read: a cancel when
      the body does not decode or the write fails; otherwise the envelope is
      written to the request's own artifact path and then, as the last
      effect, the request is redirected to exactly that path. Operation
      failures (unknown method, bad params) are written and redirected too. */
  lemma InterceptOutcomes(host: HostInfo, parse: string -> Result<Value>, stringify: Value -> string,
                          tmpdir: string, unwritable: set<string>, details: Details)
    requires ExtractBody(details).Some?
    ensures var effects := Intercept(host, parse, stringify, tmpdir, unwritable, details);
            var decoded := DecodeCall(parse, ExtractBody(details).value);
            var path := ArtifactPath(tmpdir, details.id);
            (effects == [Answered(Cancel)] <==> decoded.Failure? || path in unwritable) &&
            (decoded.Success? && path !in unwritable ==>
               var call := decoded.value;
               effects == [WroteFile(path, stringify(Handle(host, call.methodName, call.params).ToValue())),
                           Answered(Redirect("file://" + path))])
  {
  }

  /** A request whose first upload element has no bytes is never answered. */
  lemma UnreadableBodyUnanswered(host: HostInfo, parse: string -> Result<Value>, stringify: Value -> string,
                                 tmpdir: string, unwritable: set<string>, id: nat, url: string)
    ensures var details := Details(id, url, Some([UploadElement(None)]));
            Intercept(host, parse, stringify, tmpdir, unwritable, details) == []
  {
  }

  /** With the body read inside the `try`, every request is answered exactly once. */
  lemma GuardedAnsweredOnce(host: HostInfo, parse: string -> Result<Value>, stringify: Value -> string,
                            tmpdir: string, unwritable: set<string>, details: Details)
    ensures AnsweredOnceAtEnd(GuardedIntercept(host, parse, stringify, tmpdir, unwritable, details))
    ensures ExtractBody(details).Some? ==>
              GuardedIntercept(host, parse, stringify, tmpdir, unwritable, details) ==
              Intercept(host, parse, stringify, tmpdir, unwritable, details)
  {
  }

  /** Only the request's own artifact entry may change; a body that does not
      decode changes nothing. */
  lemma OnlyArtifactChanges(host: HostInfo, parse: string -> Result<Value>, stringify: Value -> string,
                            tmpdir: string, unwritable: set<string>, details: Details,
                            files: map<string, string>)
    ensures var effects := Intercept(host, parse, stringify, tmpdir, unwritable, details);
            var after := ApplyWrites(files, effects);
            var path := ArtifactPath(tmpdir, details.id);
            (forall k :: k != path ==> (k in after <==> k in files)) &&
            (forall k :: k != path && k in files ==> after[k] == files[k]) &&
            (effects != [] && effects[0].WroteFile? ==> path in after && after[path] == effects[0].content) &&
            (ExtractBody(details).Some? && DecodeCall(parse, ExtractBody(details).value).Failure? ==>
               after == files)
  {
    var effects := Intercept(host, parse, stringify, tmpdir, unwritable, details);
    var path := ArtifactPath(tmpdir, details.id);
    if effects != [] {
      if effects[0].WroteFile? {
        ApplyWritesOfAnswers(files, path, effects[0].content, effects[1].answer);
      } else {
        ApplyWritesOfAnswers(files, path, "", Cancel);
      }
    }
  }

  /** Only the first upload element matters: requests that agree on it, and
      on their id, have the same effects. */
  lemma OnlyFirstElementRead(host: HostInfo, parse: string -> Result<Value>, stringify: Value -> string,
                             tmpdir: string, unwritable: set<string>, d1: Details, d2: Details)
    requires d1.id == d2.id
    requires d1.uploadData.Some? && d2.uploadData.Some?
    requires |d1.uploadData.value| > 0 && |d2.uploadData.value| > 0
    requires d1.uploadData.value[0] == d2.uploadData.value[0]
    ensures Intercept(host, parse, stringify, tmpdir, unwritable, d1) ==
            Intercept(host, parse, stringify, tmpdir, unwritable, d2)
  {
  }

  /** The main process as the listener sees it: the shared temporary
      directory, the paths a write to which fails, and the record of what
      the listener did. */
  class Host {
    const tmpdir: string
    const unwritable: set<string>
    var files: map<string, string>
    var trace: seq<Effect>

    constructor (tmpdir: string, unwritable: set<string>, files: map<string, string>)
      ensures this.tmpdir == tmpdir && this.unwritable == unwritable
      ensures this.files == files && trace == []
    {
      this.tmpdir := tmpdir;
      this.unwritable := unwritable;
      this.files := files;
      trace := [];
    }

    /** `fs.writeFileSync(path, content, "utf8")`; `ok` is false when the
        write throws, and then nothing is written. */
    method WriteFileSync(path: string, content: string) returns (ok: bool)
      modifies this
      ensures ok == (path !in unwritable)
      ensures files == if ok then old(files)[path := content] else old(files)
      ensures trace == if ok then old(trace) + [WroteFile(path, content)] else old(trace)
    {
      ok := path !in unwritable;
      if ok {
        files := files[path := content];
        trace := trace + [WroteFile(path, content)];
      }
    }

    /** The listener's `callback(answer)`. */
    method Callback(answer: Answer)
      modifies this
      ensures files == old(files) && trace == old(trace) + [Answered(answer)]
    {
      trace := trace + [Answered(answer)];
    }
  }

  /** The `onBeforeRequest` listener for one request, as written. */
  method OnBeforeRequest(host: Host, info: HostInfo, parse: string -> Result<Value>,
                         stringify: Value -> string, details: Details)
    modifies host
    ensures host.trace ==
              old(host.trace) + Intercept(info, parse, stringify, host.tmpdir, host.unwritable, details)
    ensures host.files ==
              ApplyWrites(old(host.files), Intercept(info, parse, stringify, host.tmpdir, host.unwritable, details))
  {
    var body := "";
    if details.uploadData.Some? && |details.uploadData.value| > 0 {
      var first := details.uploadData.value[0];
      if first.bytes.None? {
        // `bytes.toString()` throws before the `try`: the listener exits
        // and the callback is never called
        return;
      }
      body := first.bytes.value;
    }
    TryBlock(host, info, parse, stringify, details.id, body);
  }

  /** The listener with the body read inside the `try`. */
  method OnBeforeRequestGuarded(host: Host, info: HostInfo, parse: string -> Result<Value>,
                                stringify: Value -> string, details: Details)
    modifies host
    ensures host.trace ==
              old(host.trace) + GuardedIntercept(info, parse, stringify, host.tmpdir, host.unwritable, details)
    ensures host.files ==
              ApplyWrites(old(host.files), GuardedIntercept(info, parse, stringify, host.tmpdir, host.unwritable, details))
  {
    var body := "";
    if details.uploadData.Some? && |details.uploadData.value| > 0 {
      var first := details.uploadData.value[0];
      if first.bytes.None? {
        host.Callback(Cancel);
        return;
      }
      body := first.bytes.value;
    }
    TryBlock(host, info, parse, stringify, details.id, body);
  }

  /** The `try` block of the listener for a body text. */
  method TryBlock(host: Host, info: HostInfo, parse: string -> Result<Value>,
                  stringify: Value -> string, id: nat, body: string)
    modifies host
    ensures host.trace ==
              old(host.trace) + AnswerBody(info, parse, stringify, host.tmpdir, host.unwritable, id, body)
    ensures host.files ==
              ApplyWrites(old(host.files), AnswerBody(info, parse, stringify, host.tmpdir, host.unwritable, id, body))
  {
    ghost var effects := AnswerBody(info, parse, stringify, host.tmpdir, host.unwritable, id, body);
    var decoded := DecodeCall(parse, body);
    var tempPath := PathJoin(host.tmpdir, FileName(id));
    if decoded.Failure? {
      ApplyWritesOfAnswers(host.files, tempPath, "", Cancel);
      host.Callback(Cancel);
      return;
    }
    var res := Handle(info, decoded.value.methodName, decoded.value.params);
    var content := stringify(res.ToValue());
    ApplyWritesOfAnswers(host.files, tempPath, content, Cancel);
    ApplyWritesOfAnswers(host.files, tempPath, content, Redirect("file://" + tempPath));
    var written := host.WriteFileSync(tempPath, content);
    if !written {
      assert effects == [Answered(Cancel)];
      host.Callback(Cancel);
      return;
    }
    assert effects == [WroteFile(tempPath, content), Answered(Redirect("file://" + tempPath))];
    host.Callback(Redirect("file://" + tempPath));
  }
}
