# electron-bridge: a verified model of the request/response bridge

The repository is a small Electron demo. Content in an isolated webview calls
privileged host operations by sending what looks like an ordinary HTTP request.
The host intercepts the request, runs the named operation, and answers with a
JSON response envelope. This Dafny project models that bridge and proves what
each part promises:

- **The dispatcher** (`handleBridgeCall` in `src/main/main.js`, and its copy
  `handle` in `main.js`). It maps `{method, params}` to `{code: 0, msg: 'ok', data}`
  or `{code: 1, msg}` and never throws. It has three operations:
  `getSystemInfo`, `calculateSum`, and `slowOperation`, whose delay is clamped
  into [100, 3000].
- **The custom-protocol handler** for `mp-bridge://sync` (strategy B). It
  checks the route after removing one trailing slash and reads the body stream
  chunk by chunk. It then decodes and dispatches, and answers 200 with CORS
  headers, 500 with a failure envelope, or 404.
- **The pre-send interceptor** of the webview session (strategy A). It takes
  the body from the first upload element, writes the envelope to
  `<tmpdir>/<id>.json`, and redirects the request to that file with
  `file://`. It cancels the request when anything in its `try` fails.
- **The guest-side transport** (`syncBridgeCall`, `asyncBridgeCall`). It maps
  the XHR outcome to a returned value or a thrown error. The async call uses a
  promise that settles once.
- **The renderer build's output naming**: the `flatten-output` hook that moves
  the two entry pages to `main.html` and `webview.html`, and the
  `assetFileNames` rule.

JavaScript values are the datatype `JsValue.Value`: undefined, null, booleans,
integer numbers, NaN, strings, arrays and objects (string-keyed maps). The
model also gives the language rules the bridge depends on: truthiness,
`typeof`, `String(v)`, `Number(v)`, property reads that throw on
`null`/`undefined`, and `Math.max`/`Math.min`. Converting a value to a
primitive can throw: an object with its own (non-function) `toString` gives
the TypeError 'Cannot convert object to primitive value', and so does an array
holding such an object. The model carries this failure through `${method}`
in the unknown-method message and in the guest's log line, and through the
delay clamp. `JsValue.JsonNormal` describes what a value becomes after a trip
through JSON: undefined members are dropped, and undefined array elements and
NaN become null. `JSON.parse` and
`JSON.stringify` are library code. They appear as function parameters
(`parse: string -> Result<Value>`, `stringify: Value -> string`). Process
metadata (`process.platform`, `process.versions`, `process.arch`,
`process.release.name`) is the parameter `HostInfo`. The write capability of
the temporary directory is the set of paths a write to which fails.

Files: `wrappers.dfy` (Option, Result), `decimal.dfy` (decimal text of
integers), `js_value.dfy`, `bridge_call.dfy` (envelope, decoding, dispatcher),
`protocol_handler.dfy`, `interceptor.dfy`, `guest_transport.dfy`,
`flatten_output.dfy`.

Two behaviours of the code worth noting:

- A body that parses to an object without `method` is not rejected as
  malformed. It is dispatched with `method` undefined and answered with
  '未知方法: undefined' (status 200 under strategy B, a redirect under
  strategy A).
- Artifacts are not guaranteed never to be overwritten: `writeFileSync`
  replaces an existing file of the same name.

## Model

| member | source | states |
|---|---|---|
| `Decimal.NatToString` | main.js:62 | the text of a request id is a non-empty run of decimal digits |
| `Decimal.ParseNatToString` | main.js:62 | reading back the decimal text of a request id gives the id |
| `Decimal.NatToStringInjective` | main.js:62 | distinct ids have distinct decimal texts |
| `JsValue.Truthy` | src/main/main.js:178-200 | a value is falsy exactly when it is undefined, null, false, 0, NaN or ''; this decides the `params.detail ?` test (:178) and the `params.delay || 100` default (:200) |
| `JsValue.TypeOf` | src/main/main.js:188 | `typeof v` is "number" exactly for the number values (NaN included) |
| `JsValue.ToString` | src/main/main.js:213 | `${v}` throws 'Cannot convert object to primitive value' exactly for an object with its own `toString`, or an array holding one; otherwise a string is itself, an integer its decimal text, a boolean 'true' or 'false', NaN 'NaN', undefined 'undefined', null 'null', any other object '[object Object]', and an array the texts of its elements joined with ',', with null and undefined elements empty (so `[1, null, 2]` gives '1,,2') |
| `JsValue.ArrayTextExample` | src/main/main.js:213 | the array `[1, null, 2]` inserted into a template literal reads '1,,2' |
| `JsValue.TrimStart` | src/main/main.js:200 | the result is a suffix of the text, what it drops is all white space, and it does not start with white space |
| `JsValue.TrimEnd` | src/main/main.js:200 | the result is a prefix of the text, what it drops is all white space, and it does not end with white space |
| `JsValue.TrimPadded` | src/main/main.js:200 | trimming removes exactly the white space around a text that has none at its ends |
| `JsValue.StringToNumber` | src/main/main.js:200 | `Number(text)` always yields a number; NaN exactly when the trimmed text is not an optionally signed run of digits; '' gives 0, and digits give their value with the sign applied |
| `JsValue.ObjectTextIsNaN` | src/main/main.js:200 | `Number('[object Object]')` is NaN |
| `JsValue.NumberOfIntText` | src/main/main.js:200 | `Number` reads back the decimal text of every integer, surrounded by any white space |
| `JsValue.ToNumber` | src/main/main.js:200 | the coercion `Math.max` applies throws exactly when conversion to a primitive throws; otherwise it yields a number, leaves numbers unchanged, gives NaN for undefined and for other objects, 0 for null, 1/0 for booleans, `Number(text)` for strings and for an array's joined text |
| `JsValue.Get` | src/main/main.js:178 | reading a property throws 'Cannot read properties of null/undefined (reading …)' exactly when the base is null or undefined; otherwise it yields an own property, or undefined when there is none |
| `JsValue.MathMax` | src/main/main.js:200 | throws exactly when an argument's coercion throws; otherwise NaN when a coerced argument is NaN, else the larger coerced argument |
| `JsValue.MathMin` | src/main/main.js:200 | throws exactly when an argument's coercion throws; otherwise NaN when a coerced argument is NaN, else the smaller coerced argument |
| `JsValue.AddNumbers` | src/main/main.js:194 | the sum of two integers, NaN when either is NaN |
| `JsValue.JsonNormal` | src/utils/bridge.js:26 | after a JSON round trip a value other than undefined holds no undefined and no NaN, and a value that holds neither comes back unchanged; NaN becomes null; an array keeps its length, an undefined element becomes null and every other element is its own round trip; an object keeps exactly its members whose value is not undefined, each its own round trip |
| `JsValue.NormalMember` | src/main/main.js:83 | a member of an object after the JSON round trip is the round trip of the member |
| `BridgeCall.Envelope.ToValue` | src/main/main.js:216-226 | `code` and `msg` are always present; `data` is present exactly when `code` is 0; success carries msg 'ok' |
| `BridgeCall.DecodeCall` | src/main/main.js:83 | fails exactly when the body does not parse or parses to null, with the parser's message or the destructuring TypeError; otherwise yields the parsed `method` and `params`, undefined where absent |
| `BridgeCall.SystemInfo` | src/main/main.js:172-185 | throws reading `detail` exactly when params are nullish; otherwise yields an object with exactly the keys platform, electronVersion, nodeVersion and detail |
| `BridgeCall.CalculateSum` | src/main/main.js:186-197 | throws reading `a` for nullish params; otherwise succeeds exactly when `a` and `b` are numbers, failing with '参数必须为数字'; the result has exactly the keys a, b, sum and message |
| `BridgeCall.EffectiveDelay` | src/main/main.js:200 | throws exactly when the delay cannot be converted to a primitive; otherwise NaN or in [100, 3000]; a falsy delay gives exactly 100; NaN exactly for a truthy delay that coerces to NaN; a coerced number below 100, inside the range or above 3000 gives 100, itself or 3000 |
| `BridgeCall.SlowOperation` | src/main/main.js:199-210 | throws reading `delay` for nullish params, and the conversion error exactly when the delay cannot be converted; the result has exactly the keys delay and message |
| `BridgeCall.UnknownMethod` | src/main/main.js:212-213 | always throws: with the conversion error when the method cannot be converted to text, otherwise '未知方法: ' followed by its text |
| `BridgeCall.Wrap` | src/main/main.js:216-226 | a thrown error becomes a failure envelope with its message; a result becomes a success envelope carrying it |
| `BridgeCall.HandleBridgeCall` | src/main/main.js:167-227 | code 0 only for one of the three registered names called with params that are not nullish |
| `BridgeCall.UnknownMethodFails` | src/main/main.js:212-213 | any other method yields code 1: with the conversion error when the method cannot be converted to text, otherwise '未知方法: ' followed by its text; a string method gives the string itself, a missing one '未知方法: undefined' |
| `BridgeCall.MissingParamsFails` | src/main/main.js:172-200 | a registered method with null or undefined params fails with the TypeError of the first property it reads |
| `BridgeCall.CalculateSumContract` | src/main/main.js:187-197 | fails with '参数必须为数字' exactly when `a` or `b` is not a number; otherwise echoes `a` and `b`, returns their sum (NaN when either is NaN) and '计算完成' |
| `BridgeCall.SlowOperationContract` | src/main/main.js:199-210 | for params that are not nullish: code 0 exactly when the delay can be converted, else code 1 with the conversion error; on success the data is exactly the clamped delay and '耗时操作完成'; a falsy delay succeeds with 100 |
| `BridgeCall.SystemInfoContract` | src/main/main.js:172-185 | reports platform and versions; `detail` is undefined unless `params.detail` is truthy, when it holds `arch` and `release` |
| `ProtocolHandler.StripTrailingSlash` | src/main/main.js:63 | removes exactly one trailing '/', and nothing when there is none |
| `ProtocolHandler.RouteAcceptsExactly` | src/main/main.js:63-66 | exactly `mp-bridge://sync` and `mp-bridge://sync/` pass the route check |
| `ProtocolHandler.RouteExamples` | src/main/main.js:63-64 | `mp-bridge://sync/` is accepted and `mp-bridge://sync//` is not |
| `ProtocolHandler.ConcatAppend` | src/main/main.js:76-80 | the body of a stream read in two parts is the join of the two parts |
| `ProtocolHandler.ChunkInPlace` | src/main/main.js:76-80 | the body is the text of the chunks before position k, then chunk k, then the text of the chunks after k |
| `ProtocolHandler.Respond` | src/main/main.js:62-113 | every answer has status 200, 404 or 500; 404 exactly for an address that fails the route check, and then the answer is 'Not Found' with the `text/plain;charset=UTF-8` content type the `Response` constructor gives a string body |
| `ProtocolHandler.HandleRequest` | src/main/main.js:62-114 | the handler (route check, chunk loop, decode, dispatch, status) answers what `Respond` describes |
| `ProtocolHandler.StatusDecision` | src/main/main.js:63-112 | another address gets 404 'Not Found' whatever its body; status 500 exactly when the body does not parse or parses to null, with the error headers and a failure envelope; otherwise 200 with the CORS headers and the dispatcher's envelope |
| `ProtocolHandler.OperationFailureIsStill200` | src/main/main.js:86-99 | a decodable body is answered with status 200 even when the operation fails |
| `ProtocolHandler.EmptyBodyFails` | src/main/main.js:71-83 | a request that is not a POST, or has no body, is parsed as '' and, when '' does not parse, answered 500 with the parser's message |
| `Interceptor.Handle` | main.js:105-166 | the second copy of the dispatcher returns the same envelope as `handleBridgeCall` for every call |
| `Interceptor.ArtifactPathsDistinct` | main.js:61-63 | distinct request ids give distinct artifact paths |
| `Interceptor.ExtractBody` | main.js:48-51 | the body is '' without upload data and otherwise the bytes of the first element (absent when it has none) |
| `Interceptor.AnswerBody` | main.js:53-96 | the `try` block answers exactly once, as its last effect, and writes to no path but `<tmpdir>/<id>.json` |
| `Interceptor.Intercept` | main.js:44-97 | a first upload element without bytes gives no effect at all; otherwise the callback is called exactly once, last; only the request's artifact is written |
| `Interceptor.InterceptOutcomes` | main.js:53-96 | a body that does not decode, or a failed write, cancels; otherwise the envelope is written to `<tmpdir>/<id>.json` and the request is then redirected to `file://` plus exactly that path, operation failures included |
| `Interceptor.UnreadableBodyUnanswered` | main.js:49-51 | a first upload element without bytes throws before the `try`: no write and no answer |
| `Interceptor.GuardedAnsweredOnce` | main.js:48-96 | with the body read inside the `try`, every request is answered exactly once, and the answer is unchanged whenever the body can be read |
| `Interceptor.OnlyArtifactChanges` | main.js:61-67 | no entry of the temporary directory other than the request's artifact changes; on success that entry holds the written envelope; a body that does not decode writes nothing |
| `Interceptor.OnlyFirstElementRead` | main.js:49-50 | requests that agree on their id and first upload element have the same effects |
| `Interceptor.Host.WriteFileSync` | main.js:67 | a write either stores the content under the path and records it, or fails and changes nothing |
| `Interceptor.Host.Callback` | main.js:70-74 | an answer is recorded after everything before it; files are untouched |
| `Interceptor.TryBlock` | main.js:53-96 | the listener's `try` block has the effects `AnswerBody` describes, in order, and applies its writes |
| `Interceptor.OnBeforeRequest` | main.js:44-97 | the listener as written appends the effects `Intercept` describes to the host's record and applies its writes |
| `Interceptor.OnBeforeRequestGuarded` | main.js:44-97 | the corrected listener appends the effects `GuardedIntercept` describes |
| `GuestTransport.BridgeUrlIsRouted` | src/utils/bridge.js:15 | both calls POST to an address the host's route check accepts, with or without a trailing '/', and the host reads the whole sent body |
| `GuestTransport.SyncBridgeCall` | src/utils/bridge.js:25-41 | status 200 returns the parsed response whatever its code; a parse error is rethrown; any other status throws '请求失败: <status> <statusText>'; a send exception is rethrown |
| `GuestTransport.BlockingCall` | src/utils/bridge.js:10-41 | a method that cannot be converted to text makes the call throw the conversion error before anything is sent; otherwise the outcome is that of the request |
| `GuestTransport.Reaction` | src/utils/bridge.js:59-88 | at readyState 4: status 200 with a parse resolves, a parse failure rejects with '解析响应失败: ', another status rejects with '请求失败: …'; `onerror` rejects with '网络错误'; a send exception rejects; earlier ready states do nothing |
| `GuestTransport.Settle` | src/utils/bridge.js:54 | a settled promise stays as it is; a pending one takes the requested settlement |
| `GuestTransport.Run` | src/utils/bridge.js:54-89 | once the promise is settled, no later event changes it |
| `GuestTransport.FirstSettlementWins` | src/utils/bridge.js:54-89 | the first event whose handler resolves or rejects decides the promise, even when both `onreadystatechange` and `onerror` fire |
| `GuestTransport.PendingWithoutCompletion` | src/utils/bridge.js:59-60 | events before readyState 4 leave the promise pending |
| `GuestTransport.AsyncBridgeCall.Resolve` | src/utils/bridge.js:54 | resolving settles a pending promise and is ignored afterwards |
| `GuestTransport.AsyncBridgeCall.Reject` | src/utils/bridge.js:54 | rejecting settles a pending promise and is ignored afterwards |
| `GuestTransport.AsyncBridgeCall.OnReadyStateChange` | src/utils/bridge.js:59-77 | the handler settles the promise as `Reaction` says, once |
| `GuestTransport.AsyncBridgeCall.OnError` | src/utils/bridge.js:79-81 | the handler rejects with '网络错误' unless already settled |
| `GuestTransport.AsyncBridgeCall.OnSendError` | src/utils/bridge.js:83-88 | a send exception rejects unless already settled |
| `GuestTransport.ServerErrorIsTransportFailure` | src/utils/bridge.js:33-36 | a status-500 failure envelope from the host never reaches the caller as an envelope: the blocking call throws and the promise rejects |
| `GuestTransport.HostAnswersCall` | src/main/main.js:62-100 | the host answers the JSON text of a call with status 200, the CORS headers and the envelope of the call as it reads it back |
| `GuestTransport.SyncCallReturnsEnvelope` | src/utils/bridge.js:10-34 | with a JSON parser that undoes `JSON.stringify` up to the JSON round trip, a blocking call is answered 200 and returns the dispatcher's envelope, failure envelopes included, as JSON carries it; a method that cannot be converted to text throws first |
| `GuestTransport.ReceivedWithoutDetail` | src/main/main.js:172-185 | `getSystemInfo` with `detail: false` reaches the caller after the JSON round trip with code 0, and reading `data.detail` there gives undefined |
| `GuestTransport.ReceivedWithDetail` | src/main/main.js:172-185 | `getSystemInfo` with `detail: true` reaches the caller after the JSON round trip with code 0 and `detail` holding `arch` and `release` |
| `GuestTransport.ReceivedNotNumbers` | src/main/main.js:186-197 | `calculateSum` with a string operand reaches the caller after the JSON round trip with code 1 and '参数必须为数字' |
| `FlattenOutput.RenamedTo` | vite.renderer.config.js:13-20 | a key is moved only to `main.html` or `webview.html` |
| `FlattenOutput.EntryKeysRenamed` | vite.renderer.config.js:13-20 | a key containing the main page's source path moves to `main.html`; one containing only the webview page's moves to `webview.html` |
| `FlattenOutput.PagesStay` | vite.renderer.config.js:13-20 | the page names themselves are never moved |
| `FlattenOutput.IncludesInside` | vite.renderer.config.js:13 | `includes` finds a pattern wherever it occurs |
| `FlattenOutput.IncludesExactlyOccurrences` | vite.renderer.config.js:13 | `includes` holds exactly when the pattern occurs at some position of the text |
| `FlattenOutput.Step` | vite.renderer.config.js:13-20 | a key that is absent or matches neither page leaves the bundle unchanged; a matched key is removed, its page name holds its item, and every other entry is unchanged |
| `FlattenOutput.Flatten` | vite.renderer.config.js:12-22 | the bundle afterwards holds only its own keys and the two page names |
| `FlattenOutput.FlattenEntry` | vite.renderer.config.js:12-21 | the `forEach` callback for one key changes the bundle exactly as `Step` describes |
| `FlattenOutput.Bundle.Delete` | vite.renderer.config.js:15 | `delete bundle[key]` removes exactly that key |
| `FlattenOutput.Bundle.Set` | vite.renderer.config.js:16 | `bundle[key] = item` stores the item under the key and changes nothing else |
| `FlattenOutput.GenerateBundle` | vite.renderer.config.js:10-23 | running the callback over the key snapshot, taken before any change, leaves the bundle as `Flatten` describes |
| `FlattenOutput.FlattenNeverGrows` | vite.renderer.config.js:12-22 | the bundle never gains entries |
| `FlattenOutput.UnmatchedKeyKept` | vite.renderer.config.js:12-22 | a key matching neither pattern (and not a page name) keeps its item |
| `FlattenOutput.MatchedKeyRemoved` | vite.renderer.config.js:13-20 | every snapshot key containing an entry page's path is gone afterwards |
| `FlattenOutput.RenamedKeyStaysGone` | vite.renderer.config.js:12-22 | a removed key is never inserted again |
| `FlattenOutput.PageKept` | vite.renderer.config.js:12-22 | a page entry that no later key moves to keeps its item |
| `FlattenOutput.LastRenamedWins` | vite.renderer.config.js:12-22 | a page name holds the item of the last snapshot key moved to it |
| `FlattenOutput.AssetFileNames` | vite.renderer.config.js:38-43 | '[name].html' exactly for names ending in '.html'; 'assets/[name]-[hash].[ext]' for every other name, a missing one included |

## Findings

| source | as written | input that shows it | evidently intended | confidence | as-written member | corrected member |
|---|---|---|---|---|---|---|
| main.js:49-51 | `details.uploadData[0].bytes.toString()` runs before the `try` that cancels failed requests | a request whose first upload element has no `bytes` (a file or blob body) | the listener cancels the request, as it does for every other request it cannot serve | medium, not executed | `Interceptor.UnreadableBodyUnanswered` | `Interceptor.GuardedAnsweredOnce` |

## Left out

- Window lifecycle, the `mainWindow` handle, the IPC handlers, scheme registration, `webRequest` filter registration and `webContents.fromId`: UI plumbing and registration calls into Electron. Only the handler bodies are modelled.
- `JSON.parse`, `JSON.stringify`, `TextDecoder` and `Buffer.toString`: library code. The first two are parameters. Chunks and upload bytes are already-decoded text, so a multi-byte character split across chunks is not modelled.
- The 1000 ms `setTimeout` before a strategy B answer, the `slowOperation` busy wait, and the `timestamp` and `actualDelay` fields of the result objects: timing and clocks. The delay clamp is kept.
- Floating point: numbers are unbounded integers. Fractions, precision loss beyond 2^53 and exponent notation in `String(n)` are not modelled. NaN is modelled because coercion yields it.
- JsValue.StringToNumber: reads only decimal integers. Hexadecimal, octal and binary literals, fractions, exponents and "Infinity" read as NaN here, where JavaScript gives a number.
- JsValue.Get: reads own properties of objects only. Inherited properties, such as `toString` on a plain object, read as undefined here.
- JsValue.ConversionThrows: values are JSON data, so a member is never a function. An own `toString` or `valueOf` that is a function, and a `Symbol.toPrimitive` method, are not modelled. An own `valueOf` that is not a function does not make conversion throw, because the inherited `toString` still answers.
- Object key order: objects are maps. The order `JSON.stringify` writes keys in, and the integer-like-first order of `Object.keys`, are not modelled. The snapshot order of `generateBundle` is a parameter. The order of the bundle's keys after renaming is not modelled.
- A body stream that fails while being read (that would be a 500 through the `catch`), and an exception from the listener's callback itself.
- `path.join` normalisation beyond the joining separator (`..`, repeated separators, Windows separators).
- XHR internals: redirect following, the sequence of ready states, and the status text. The status text is a parameter.
- GuestTransport.SyncBridgeCall: a rethrown error is modelled by its message, not by the error object.
- GuestTransport.AsyncBridgeCall.OnSendError: the rejection reason is modelled by the error's message, not by the error object.
- Concurrency across several guest surfaces: each request is modelled on its own.
- The preload scripts, `generateUUID` (random, float-based), vite.main.config.js and vite.preload.config.js: thin wrappers and declarative build configuration.
- A round-trip law for the envelope encoding: the code delegates it to `JSON.stringify`/`JSON.parse`. The end-to-end lemma `SyncCallReturnsEnvelope` takes it as a hypothesis about the parser, stated up to `JsonNormal`.
- Logging: the `console.log` and `console.error` calls in main.js, src/main/main.js and src/utils/bridge.js write to the console and change nothing the model tracks. Only the template-literal log lines of the guest (src/utils/bridge.js:11, :51) can throw, because they convert `method` to text; the other calls pass their values as arguments and convert nothing.
- Interceptor.Host.WriteFileSync: writes are modelled all-or-nothing. `fs.writeFileSync` opens the file with flag 'w' (create or truncate) before writing, so a failure during the write (such as ENOSPC or EIO) can leave an empty or partial `<id>.json`. In the model a failed write changes no file, and `TryBlock`, `OnBeforeRequest`, `OnBeforeRequestGuarded` and `OnlyArtifactChanges` inherit that.
- The log line of `asyncBridgeCall` (src/utils/bridge.js:51) throws synchronously, before the promise exists, for a method that cannot be converted to text. The class `AsyncBridgeCall` starts after it. The same line in `syncBridgeCall` is modelled by `BlockingCall`.
- Guest arguments that JSON cannot write, such as functions, BigInt values and cyclic objects, for which `JSON.stringify` throws or drops members. The guest's `method` and `params` are JSON values here.
