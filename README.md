# service-bridge in Dafny

A model of the core of `@drunkcod/service-bridge`, a TypeScript library that runs
named functions in a worker thread and calls them from the main thread over a
message port, together with the response helpers and the log transport that its
examples ship.

- **Coordinator** (`Bridge`, file `service_bridge.dfy`). `ServiceBridge` keeps the
  continuation of every pending promise in a `SlotBuffer`. Each request posts
  `[handle, command, ...args]`. A reply carrying the handle releases the slot and
  settles the promise exactly once. A rejected `call` gets the boundary line and
  the caller's stack appended to the remote stack.
- **Slot table** (`Slots`, file `slot_buffer.dfy`). This is a fixed-capacity array of
  slots with a LIFO free-list of indices and a generation per slot. A handle packs
  the generation above a 32-bit index. The class keeps the arrays of the source.
  Its invariant is the pure predicate `FreeInv`: the free region and the live
  slots partition the indices. One lemma per operation proves that the invariant
  is preserved.
- **Worker** (`Worker`, file `worker.dfy`). `WorkerRuntime` is the state that
  `runServiceBridgeWorker` closes over: the registry of named functions, the posted
  replies and whether the port is closed. Its `OnMessage` is the message handler.
  It answers calls, config and close, and every reply echoes the slot that was
  shifted off the incoming message.
- **Wire format** (`Protocol`, `ErrorEnvelope`, `CallError`):
  - the command tags;
  - the error envelope a thrown value becomes, with the worker runtime's own stack
    frames cut off;
  - the `ServiceBridgeCallError` rebuilt from it on the other side.

  `EndToEnd` puts the two sides together. The worker reads a call message the
  way the coordinator wrote it, and its reply settles the caller's promise with
  the result or with the error.
- **Helpers**:
  - `Proxy`, the thunk-caching proxy of `makeProxy`;
  - `Transfer`, the transfer envelope;
  - `FilterInPlace`, the in-place array filter.
- **Responses** (`HttpResponse`, `ExpressResponse`). `HttpResponse` models the
  table of 61 HTTP status codes with their factory names and reason phrases,
  `getResponseMessage`, the `Response` value with its JSON form, and the named
  factories installed from the table. `ExpressResponse` models the four-builder
  variant used by the express example.
- **Log transport** (`LogTransport`). `MessagePortTransport` buffers log messages
  until a port is connected, then flushes them in order.

JavaScript values are the datatype `JsValues.Value`. Truthiness, `typeof`,
`String()` and `??` follow JavaScript. Prototype-less records are maps. An absent
property or an absent optional argument is `Undefined`. Promises are modelled
by what settles them. The `settled` log records each settlement, and `Posted`
says whether a public method returned a pending promise or an exception.

## Model

| member | source | states |
|---|---|---|
| Protocol.CommandOf | src/BridgeCommand.ts:1 | A received tag names a command exactly when it is 0, 1 or -1, and then it is that command's tag |
| Protocol.CommandOfTag | src/BridgeCommand.ts:1 | The tags are distinct: decoding a command's tag gives the command back |
| Slots.Encode | src/SlotBuffer.ts:23 | Decoding the handle `(gen << 32) \| i` of an index below 2^32 gives back exactly the generation and the index |
| Slots.Decode | src/SlotBuffer.ts:27-28 | The index is below 2^32, and the handle is generation * 2^32 + index |
| Slots.EncodeInjective | src/SlotBuffer.ts:23 | Handles of different (generation, index) pairs differ |
| Slots.FreeListEmptyIffAllTaken | src/SlotBuffer.ts:19 | The free-list is empty exactly when every slot holds a value |
| Slots.AcquireKeepsFreeInv | src/SlotBuffer.ts:20-21 | Taking the top free index and filling its slot keeps the free region and the live slots a partition, with one more live slot |
| Slots.ReleaseKeepsFreeInv | src/SlotBuffer.ts:31-33 | Emptying a live slot and pushing its index keeps the partition, and the index becomes the top of the free-list |
| Slots.SlotBuffer.constructor | src/SlotBuffer.ts:8-16 | A table of `capacity` slots, 1024 by default: every index is free and in order on the free-list, every generation is 0, the next-free counter is 0 |
| Slots.SlotBuffer.Acquire | src/SlotBuffer.ts:18-24 | The capacity error exactly when the table is full, with nothing changed. Otherwise the top free index, which was empty, gets the value and a generation one higher; the handle encodes them; the free-list loses its top; nothing else changes |
| Slots.AcquireFree | src/SlotBuffer.ts:18-24 | An acquire as a caller sees it: with a free slot, the top free index, which was empty, gets the value at a generation one higher, and every other slot, generation and the counter change only as that requires; with none, nothing changes |
| Slots.SlotBuffer.Release | src/SlotBuffer.ts:26-35 | A handle out of range or of another generation is refused with nothing changed. A matching one returns the stored value, empties only its slot, keeps the generation and pushes the index on the free-list |
| Slots.ReleaseLive | src/SlotBuffer.ts:30-33 | Releasing the current handle of a live slot returns its value and leaves its index on top of the free-list |
| Slots.AcquireTop | src/SlotBuffer.ts:20-23 | An acquire takes the index on top of the free-list and returns its handle at the next generation |
| Slots.ReleaseStale | src/SlotBuffer.ts:30 | A handle of another generation or out of range is refused, with the contents and the free-list unchanged |
| Slots.ReleaseThenAcquire | src/SlotBuffer.ts:18-35 | The free-list is LIFO: after a matching release the next acquire reuses that index with the generation one higher, and the old handle is refused from then on |
| Slots.AcquireTwice | src/SlotBuffer.ts:18-24 | Two acquires with two free slots store their values in two different slots |
| Bridge.NewError | src/ServiceBridge.ts:96 | A coordinator-side exception is a plain `Error` with the given message |
| Bridge.AsPath | src/ServiceBridge.ts:100 | `file://` URLs are converted to paths and anything else is kept |
| Bridge.BaseUrl | src/ServiceBridge.ts:39-51 | An explicit base naming a `.js`/`.ts` file gives its directory, otherwise the base itself. Without one, the caller file's directory, or the 'Failed to determine caller path.' error when no caller file is found |
| Bridge.Annotate | src/ServiceBridge.ts:58-65 | An `Error` with a non-empty stack gets the boundary line and the caller's stack minus 'Error' appended, all else unchanged; any other exception is rethrown as it is |
| Bridge.AnnotateKeepsRemoteStack | src/ServiceBridge.ts:62 | The annotated stack starts with the worker-side stack and contains the boundary marker |
| Bridge.ContainsAt | src/ServiceBridge.ts:62 | A string occurring at some position is contained in the text |
| Bridge.Settle | src/ServiceBridge.ts:72-77 | A reply without an error resolves with the result. One with an error rejects with the rebuilt `ServiceBridgeCallError`, annotated exactly when the request came from `call` |
| Bridge.CallRejectionKeepsWorkerError | src/ServiceBridge.ts:57-65 | A rejected `call` keeps the worker error's name and message, and its stack starts with the worker's stack followed by the boundary |
| Bridge.Message | src/ServiceBridge.ts:82 | The posted message is the handle as a BigInt, then the command's tag, then the arguments unchanged |
| Bridge.IssuePreservesAtMostOnce | src/ServiceBridge.ts:80-81 | Storing a continuation with a fresh identity in an empty slot keeps identities distinct and unsettled |
| Bridge.SettlePreservesAtMostOnce | src/ServiceBridge.ts:73-76 | Taking a pending continuation out of its slot and settling it keeps every continuation settled at most once |
| Bridge.ServiceBridge.constructor | src/ServiceBridge.ts:31-35 | A slot table of `maxSlots` slots, 1024 by default, all free; nothing posted, nothing settled |
| Bridge.ServiceBridge.Issue | src/ServiceBridge.ts:80-81 | With no free slot nothing changes. Otherwise a continuation with the next identity is stored in the top free slot, which was empty, its generation goes up by one and its handle is returned; no other slot or generation changes |
| Bridge.ServiceBridge.PostMessage | src/ServiceBridge.ts:79-84 | The capacity error with nothing changed, or the slot is taken and `[handle, command, ...args]` posted. A failing post leaves the slot taken and posts nothing |
| Bridge.ServiceBridge.Call | src/ServiceBridge.ts:55-66 | Posts `[handle, 0, fn, ...args]` and returns a pending promise. Every failure, the capacity error included, becomes a rejection passed through `Annotate`. With a free slot, only that slot and its generation change and the identity counter goes up by one, even when the post fails; when full, nothing changes |
| Bridge.ServiceBridge.Config | src/ServiceBridge.ts:39-51 | The caller-path error, or the capacity error, is thrown with nothing changed. Otherwise it posts `[handle, 1, fnDef, baseUrl]` with the base chosen by `BaseUrl`, or throws the post's failure with nothing posted; either way only the taken slot and its generation change and the identity counter goes up by one |
| Bridge.ServiceBridge.Close | src/ServiceBridge.ts:68-70 | Posts `[handle, -1]` in a fresh slot, or throws the post's failure with nothing posted; only that slot and its generation change. The capacity error is thrown with nothing changed |
| Bridge.ServiceBridge.OnMessage | src/ServiceBridge.ts:72-77 | A stale or out-of-range handle is ignored. A matching one frees exactly its slot and appends the settlement of that slot's continuation, keeping every promise settled at most once |
| Bridge.CallThenReply | src/ServiceBridge.ts:55-84 | The reply echoing the handle that `call` posted settles exactly the promise that `call` returned |
| Bridge.CallHolding | src/ServiceBridge.ts:55-84 | A successful `call` posts its handle, which from then on holds the call's continuation; a continuation held before under another handle is still held |
| Bridge.ReplyTo | src/ServiceBridge.ts:72-77 | The reply echoing a held handle settles exactly that handle's continuation; any other held continuation stays held |
| Bridge.CallTwice | src/ServiceBridge.ts:55-84 | Two `call`s in a row post two handles, each holding its own call's continuation |
| Bridge.TwoCallsOutOfOrder | src/ServiceBridge.ts:55-84 | Two calls in flight answered in the opposite order: the reply to the second settles the second promise, then the reply to the first settles the first |
| Worker.Shift | src/runServiceBridgeWorker.ts:40-41 | `shift` of an empty array gives undefined and an empty rest; otherwise the first element followed by the rest is the input |
| Worker.Lookup | src/runServiceBridgeWorker.ts:45 | A missing name reads as undefined |
| Worker.CallReply | src/runServiceBridgeWorker.ts:43-74 | The reply echoes the slot. A falsy registry entry gives the MissingFunctionError envelope with the name as cause. Otherwise the result, or the envelope of what the function threw |
| Worker.LastRegistration | src/runServiceBridgeWorker.ts:28-31 | The index of the last registration of a name, or -1 when none registers it |
| Worker.RegisterAll | src/runServiceBridgeWorker.ts:28-31 | A run of `add` calls never removes a name, and every name it registers is present afterwards |
| Worker.RegisterAllLastWins | src/runServiceBridgeWorker.ts:28-31 | After a run of `add` calls, a name holds the function of its last registration; unregistered names keep their previous entry |
| Worker.Names | src/runServiceBridgeWorker.ts:28-31 | The set of names a run of `add` calls registers, neither more nor fewer |
| Worker.RegisterAllKeys | src/runServiceBridgeWorker.ts:28-31 | The registry gains exactly the registered names |
| Worker.Arg | src/runServiceBridgeWorker.ts:78 | An argument past the end of the message is undefined |
| Worker.WorkerRuntime.constructor | src/runServiceBridgeWorker.ts:17-18 | An empty registry, nothing posted, port open |
| Worker.WorkerRuntime.Add | src/runServiceBridgeWorker.ts:28-31 | `add` overwrites the name's entry and returns the name |
| Worker.WorkerRuntime.RunConfig | src/runServiceBridgeWorker.ts:21-37 | The configurator's `add` calls take effect in order whatever its outcome, which is passed on |
| Worker.WorkerRuntime.OnMessage | src/runServiceBridgeWorker.ts:39-89 | Per tag: a call posts `CallReply` for the shifted name and the remaining arguments. Config registers and replies with the result, or posts nothing when the configurator throws. Close empties the registry, replies null and closes. An unknown tag changes nothing |
| Worker.RunServiceBridgeWorker | src/runServiceBridgeWorker.ts:15-18 | A falsy port throws 'Missing "port"'; any other gives a fresh runtime with an empty registry |
| ErrorEnvelope.FindIndex | src/toErrorReply.ts:9 | The first line containing the file name, or -1 exactly when no line contains it |
| ErrorEnvelope.TrimStack | src/toErrorReply.ts:8-10 | A stack with no line naming the file is kept; one whose first line names it becomes empty; otherwise its lines are exactly the lines before the first one naming the file |
| ErrorEnvelope.TrimOptionalStack | src/toErrorReply.ts:6-11 | An absent or empty stack is passed on as it is; any other is trimmed |
| ErrorEnvelope.ToErrorReply | src/toErrorReply.ts:4-22 | An `Error` keeps its name, message and cause and gets its stack trimmed; any other value becomes `{ name: 'Error', message: String(value) }` |
| ErrorEnvelope.TrimIsLinePrefix | src/toErrorReply.ts:8-10 | The trimmed stack is the join of the leading lines of the original, hence a prefix of it |
| ErrorEnvelope.TrimDropsRuntimeFrames | src/toErrorReply.ts:8-10 | No line of the trimmed stack names the runtime file |
| Strings.JoinSplit | src/toErrorReply.ts:8-10 | Joining the lines of a split gives back the original string |
| Strings.SplitJoin | src/toErrorReply.ts:8-10 | Splitting the join of lines without newlines gives back the lines |
| Strings.Substring | src/ServiceBridge.ts:62 | `substring(start)` is what follows the first `start` characters, or empty past the end |
| CallError.FromReply | src/ServiceBridgeCallError.ts:3-8 | Name and message are copied; a truthy cause is kept and a falsy one dropped; a non-empty envelope stack replaces the local one |
| CallError.RoundTrip | src/ServiceBridgeCallError.ts:3-8 | An `Error` with a truthy or absent cause and a stack free of runtime frames is rebuilt exactly by the other side |
| CallError.NonErrorArrivesAsError | src/toErrorReply.ts:20 | A thrown non-`Error` arrives as an `Error` named 'Error' whose message is `String(value)` |
| EndToEnd.CallReplyTo | src/runServiceBridgeWorker.ts:40-49 | The worker's reply to a call message echoes the message's first element |
| EndToEnd.CallMessageDecodes | src/runServiceBridgeWorker.ts:40-44 | The worker reads back the handle, the call tag, the name and the arguments the coordinator posted |
| EndToEnd.ReplyEchoesHandle | src/runServiceBridgeWorker.ts:49 | The reply to a posted call carries the call's handle |
| EndToEnd.RegisteredCallResolves | src/runServiceBridgeWorker.ts:46-49 | A registered function that returns resolves the caller's promise with its result |
| EndToEnd.MissingFunctionRejects | src/runServiceBridgeWorker.ts:73 | An unregistered name rejects with MissingFunctionError, 'No such function', the name as cause unless it is empty |
| EndToEnd.ThrownErrorCrossesTheBoundary | src/runServiceBridgeWorker.ts:50-67 | An `Error` thrown by a registered function reaches the caller unchanged, only annotated for `call` |
| JsValues.Get | src/ServiceProxy.ts:15 | Reading a property (`Reflect.get` in the proxy's trap, `info[LEVEL]` and `info[MESSAGE]` in the log transport) gives the object's own value, and undefined when the property is missing |
| JsValues.JsString | src/toErrorReply.ts:20 | `String(v)`: a string is itself; a number or BigInt is a numeral that reads back as that number; undefined, null, booleans and objects give a non-empty word that is no numeral |
| JsValues.Numeral | src/toErrorReply.ts:20 | The decimal numeral of an integer, which denotes that integer |
| JsValues.NatToStringRoundTrip | src/toErrorReply.ts:20 | Reading back the digits written for a natural number gives the number |
| Proxy.ServiceProxy.constructor | src/ServiceProxy.ts:9-10 | The proxy starts with no cached thunk |
| Proxy.ServiceProxy.Get | src/ServiceProxy.ts:12-22 | A cached thunk is returned as it is. A string property gets a fresh thunk for that name, which is cached. Any other value passes through uncached |
| Proxy.ServiceProxy.SetTarget | src/ServiceProxy.ts:11 | A write to the proxied object changes only that property |
| Proxy.ServiceProxy.ReadTwice | src/ServiceProxy.ts:13-14 | Once a read yields a thunk, every later read of that property yields the same thunk, even after reassignment |
| Proxy.CallThunk | src/ServiceProxy.ts:17 | Calling a thunk posts the same message as `worker.call` with its name |
| Transfer.MakeTransfer | src/transfer.ts:3-9 | The envelope has exactly the marker, a unique symbol, set to true, the value and the list |
| Transfer.IsTransfer | src/transfer.ts:11-13 | Recognised exactly when the value is an object that has the marker key |
| Transfer.TransferIsRecognised | src/transfer.ts:9-13 | Every envelope `transfer` builds is recognised |
| Transfer.NonObjectsAreNotTransfers | src/transfer.ts:12 | Falsy values and non-objects are never envelopes |
| Transfer.RecognitionByMarkerOnly | src/transfer.ts:12 | An object is an envelope exactly when it has the marker key, whatever it holds |
| FilterInPlace.FilterInPlace | src/filterInPlace.ts:1-8 | The kept prefix is the input's accepted elements in order, the rest of the array is untouched, and the predicate sees every element once, in order |
| FilterInPlace.FilterLength | src/filterInPlace.ts:7 | The new length is the number of accepted elements |
| FilterInPlace.FilterSound | src/filterInPlace.ts:5 | Every kept element is accepted and comes from the input |
| FilterInPlace.FilterComplete | src/filterInPlace.ts:5 | Every accepted element is kept as often as it occurs; the result is a sub-multiset of the input |
| FilterInPlace.FilterExtremes | src/filterInPlace.ts:1-8 | Always-true keeps everything; always-false keeps nothing |
| HttpResponse.GetResponseMessage | packages/service-response/src/ServiceResponse.ts:72 | The listed reason phrase, and 'Unknown' exactly for codes the table lacks |
| HttpResponse.KnownResponse | packages/service-response/src/ServiceResponse.ts:3-70 | A listed code lies between 100 and 599, and its reason phrase is non-empty and never 'Unknown' |
| HttpResponse.FactoryStatus | packages/service-response/src/ServiceResponse.ts:113-117 | The status a named factory builds responses with is an HTTP status code, between 100 and 599 |
| HttpResponse.FactoryForEveryRow | packages/service-response/src/ServiceResponse.ts:113-117 | Every row's factory builds responses with the row's own code |
| HttpResponse.EveryFactoryFromItsRow | packages/service-response/src/ServiceResponse.ts:3-70 | Every factory name comes from the row at its status, so names and listed codes correspond one to one |
| HttpResponse.FactoryNamesDistinct | packages/service-response/src/ServiceResponse.ts:113-117 | No two rows share a factory name, so installing the factories overwrites none |
| HttpResponse.Response.Message | packages/service-response/src/ServiceResponse.ts:97-99 | The `message` getter is the reason phrase of the status |
| HttpResponse.Response.ToJson | packages/service-response/src/ServiceResponse.ts:101-103 | The JSON form keeps the status and the body, with the reason phrase for a null or undefined body |
| HttpResponse.NewResponse | packages/service-response/src/ServiceResponse.ts:92-95 | An undefined body becomes null and any other is kept, so a built body is never undefined |
| HttpResponse.CallFactory | packages/service-response/src/ServiceResponse.ts:113-117 | A named factory's response has a status whose row names that factory |
| HttpResponse.JsonBodyNeverNullish | packages/service-response/src/ServiceResponse.ts:92-103 | A built response's JSON body is never null or undefined: a missing body shows the reason phrase |
| HttpResponse.SpecExamples | packages/service-response/src/ServiceResponse.spec.ts:4-20 | 404 is 'Not Found', 500 'Internal Server Error', 200 'Ok'; `ok` and `notFound` build 200 and 404 with the body |
| ExpressResponse.CreateResponse | examples/express-bridge/src/ServiceResponse.ts:4-7 | Only an undefined body is replaced by the description; null is kept |
| ExpressResponse.Ok | examples/express-bridge/src/ServiceResponse.ts:28-30 | Status 200, default body 'Ok' |
| ExpressResponse.BadRequest | examples/express-bridge/src/ServiceResponse.ts:33-35 | Status 400, default body 'Bad Request' |
| ExpressResponse.Unauthorized | examples/express-bridge/src/ServiceResponse.ts:36-38 | Status 401, default body 'Unauthorized' |
| ExpressResponse.Error | examples/express-bridge/src/ServiceResponse.ts:41-43 | Status 500, default body 'Internal Server Error' |
| ExpressResponse.DefaultBodiesArePhrases | examples/express-bridge/src/ServiceResponse.ts:26-44 | Each builder's default body is the package table's reason phrase for its status |
| ExpressResponse.BuildersMatchFactories | examples/express-bridge/src/ServiceResponse.ts:26-44 | Each builder uses the status of the package factory of the same name |
| LogTransport.MessagesOfPostsTo | examples/express-bridge/src/MessagePortTransport.ts:30 | Posting a batch and reading the posted messages back gives the batch in order |
| LogTransport.MessagesAppend | examples/express-bridge/src/MessagePortTransport.ts:30 | The messages of two runs of posts are the messages of each, in order |
| LogTransport.MessagePortTransport.Buffered | examples/express-bridge/src/MessagePortTransport.ts:11 | An absent buffer holds no messages |
| LogTransport.MessagePortTransport.Connected | examples/express-bridge/src/MessagePortTransport.ts:18-20 | Once connected, nothing is buffered and every message logged has been posted, in order |
| LogTransport.MessagePortTransport.constructor | examples/express-bridge/src/MessagePortTransport.ts:13-16 | Connected exactly when a port is given; nothing logged or posted |
| LogTransport.MessagePortTransport.Connect | examples/express-bridge/src/MessagePortTransport.ts:22-25 | The port is set and the buffer flushed to it, so every message logged so far has been posted, in order |
| LogTransport.MessagePortTransport.Flush | examples/express-bridge/src/MessagePortTransport.ts:27-32 | With a buffer and a port the buffer is posted in order and dropped, otherwise nothing changes; nothing is lost |
| LogTransport.MessagePortTransport.Log | examples/express-bridge/src/MessagePortTransport.ts:34-40 | Posted when connected, buffered otherwise, callback run once; posted followed by buffered is every message logged, in order |

## Left out

- Slots.SlotBuffer.Release: requires that a matching handle's slot is still live. In the source (src/SlotBuffer.ts:30-33) a release does not advance the generation. A second release of the same handle before the slot is re-acquired therefore passes the check and pushes the index onto the free-list again, after which two acquires can hand out the same slot. The model excludes that input rather than modelling the corrupted free-list.
- Bridge.ServiceBridge.OnMessage: inherits that precondition. A worker that replied twice with the same handle before the slot was reused would trigger the double push above. It also requires the slot to be a BigInt, as every reply of the worker is; another value would make the shift in `release` throw.
- Slots.SlotBuffer.Acquire: generations are unbounded naturals. The source keeps them in a `Uint32Array`, so after 2^32 acquires of one slot the stored generation wraps to 0 while the handle carries 2^32. That handle would then never match.
- Slots.Decode: handles are exact integers. The source converts the generation with `Number`, which loses precision only beyond 2^53.
- Slots.SlotBuffer.constructor: requires a capacity of at most 2^32, since a larger index does not fit the handle's low 32 bits.
- JavaScript numbers are modelled as integers. Status codes and command tags are compared as integers, so fractional or non-numeric statuses are not modelled.
- FilterInPlace.FilterInPlace: the source ends with `xs.length = w`, which drops the tail. Dafny arrays have a fixed length, so the method returns the new length `n` instead, and the elements past `n` keep their old values.
- Slots.AcquireTwice: shows two successive acquires only. For any number of them, distinctness follows from `Acquire` always taking a slot that was empty, which the model states per call and does not restate as a lemma over a run.
- Promise scheduling and `await` are not modelled. The model is sequential: settlements are recorded in order, and the asynchronous `call` turns thrown errors into rejections (`Posted.Failed`).
- The port itself is not modelled. Posting appends to `outbox`/`replies`/`posted`. A failing `postMessage` is the parameter `sendFailure`, and a structured-clone failure of a worker reply is not modelled.
- Worker.WorkerRuntime.OnMessage: messages are only delivered while the port is open (`requires !closed`).
- Compiling and running the configurator source (`Function(...)`), its `import` of modules and the `new URL` it builds from the base path are the parameter `configure`. It yields the `add` calls the configurator makes and how it ends.
- The stack inspection of `calleeRoot` is not modelled: the caller file it extracts is the parameter `callerFile`. `ThisFileName`, the `Error` stacks the runtime records and `Error.captureStackTrace` are parameters too (`thisFileName`, `errorStack`, `localStack`, `captured`).
- `dirname` and `fileURLToPath` are the function parameters `dirname` and `fileUrlToPath`.
- `fn.toString()` of a configurator is the parameter `fnDef`.
- Calling a registered function is the parameter `invoke`, which stands for JavaScript's call of a value, including the TypeError a non-callable value throws.
- `Reflect.get` and property reads see own properties only. Prototype chains and getters are not modelled.
- `String()` of an object is "[object Object]"; custom `toString` methods are not modelled.
- The optional `cause` and `stack` of an envelope are modelled as `Undefined` and `None` when absent. A present `cause: undefined` is not told apart from an absent one.
- The winston plumbing is not modelled: the `Transport` base class, `forwardLogMessages` and `createLogPort` (examples/express-bridge/src/MessagePortTransport.ts:44-62) only wire a channel to transports.
- `startServiceBridgeWorker` and the source-map hook start a worker process; they are outside the model.
- `ServiceBridgeProxy.ts` and the example services only use the modelled core.
