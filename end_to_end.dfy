// The two sides of the bridge together: a `call` message posted by the
// coordinator (src/ServiceBridge.ts) is read by the worker's handler
// (src/runServiceBridgeWorker.ts), and the reply it posts back settles the
// coordinator's continuation.
module EndToEnd {
  import opened JsValues
  import opened Protocol
  import Bridge
  import Worker
  import ErrorEnvelope
  import Strings

  /** The reply the worker's handler posts for a message whose tag is the call command. */
  function CallReplyTo(fns: map<string, Value>, message: seq<Value>,
                       invoke: (Value, seq<Value>) -> Completion, thisFileName: string): (r: Reply)
    ensures r.slot == Worker.Shift(message).0
  {
    var (slot, afterSlot) := Worker.Shift(message);
    var (_, rest) := Worker.Shift(afterSlot);
    var (fnName, args) := Worker.Shift(rest);
    Worker.CallReply(fns, slot, fnName, args, invoke, thisFileName)
  }

  /**
   * The worker reads a call message the way the coordinator wrote it: the slot is
   * the handle, the tag is the call command, then the function name, then the
   * arguments, unchanged.
   */
  lemma CallMessageDecodes(handle: nat, fnName: string, args: seq<Value>)
    ensures var m := Bridge.Message(handle, Command.Call, [Str(fnName)] + args);
      && Worker.Shift(m).0 == BigInt(handle)
      && CommandOf(Worker.Shift(Worker.Shift(m).1).0) == Some(Command.Call)
      && Worker.Shift(Worker.Shift(Worker.Shift(m).1).1) == (Str(fnName), args)
  {
  }

  /** The reply to a posted call echoes the call's handle. */
  lemma ReplyEchoesHandle(fns: map<string, Value>, handle: nat, fnName: string, args: seq<Value>,
                          invoke: (Value, seq<Value>) -> Completion, thisFileName: string)
    ensures CallReplyTo(fns, Bridge.Message(handle, Command.Call, [Str(fnName)] + args), invoke, thisFileName).slot
         == BigInt(handle)
  {
  }

  /** A call of a registered function that returns resolves the caller's promise with its result. */
  lemma RegisteredCallResolves(fns: map<string, Value>, handle: nat, fnName: string, args: seq<Value>,
                               invoke: (Value, seq<Value>) -> Completion, thisFileName: string,
                               k: Bridge.Continuation, localStack: string, captured: string)
    requires Truthy(Worker.Lookup(fns, fnName))
    requires invoke(Worker.Lookup(fns, fnName), args).Returned?
    ensures Bridge.Settle(k, CallReplyTo(fns, Bridge.Message(handle, Command.Call, [Str(fnName)] + args), invoke, thisFileName),
                          localStack, captured)
         == Bridge.Resolved(k.id, invoke(Worker.Lookup(fns, fnName), args).result)
  {
  }

  /**
   * A call of a name the registry lacks (or holds a falsy value under) rejects the
   * caller's promise with a `MissingFunctionError` whose message is 'No such
   * function' and whose cause is the name, unless the name is empty (a falsy cause
   * is dropped when the error is rebuilt).
   */
  lemma MissingFunctionRejects(fns: map<string, Value>, handle: nat, fnName: string, args: seq<Value>,
                               invoke: (Value, seq<Value>) -> Completion, thisFileName: string,
                               k: Bridge.Continuation, localStack: string, captured: string)
    requires !Truthy(Worker.Lookup(fns, fnName))
    ensures var s := Bridge.Settle(k, CallReplyTo(fns, Bridge.Message(handle, Command.Call, [Str(fnName)] + args), invoke, thisFileName),
                                   localStack, captured);
      && s.Rejected? && s.id == k.id && s.reason.ThrownError?
      && s.reason.error.name == Worker.MissingFunctionName
      && s.reason.error.message == Worker.MissingFunctionMessage
      && s.reason.error.cause == (if fnName == "" then Undefined else Str(fnName))
  {
  }

  /**
   * A registered function that throws an `Error` whose stack is non-empty and
   * holds no frame of the worker's runtime file rejects a `config` or `close`
   * request with that very error; a `call` rejects with it annotated by the
   * boundary line, its name, message and cause unchanged.
   */
  lemma ThrownErrorCrossesTheBoundary(fns: map<string, Value>, handle: nat, fnName: string, args: seq<Value>,
                                      invoke: (Value, seq<Value>) -> Completion, thisFileName: string,
                                      k: Bridge.Continuation, localStack: string, captured: string, e: ErrorObject)
    requires Truthy(Worker.Lookup(fns, fnName))
    requires invoke(Worker.Lookup(fns, fnName), args) == Threw(ThrownError(e))
    requires Truthy(e.cause) || e.cause == Undefined
    requires e.stack.Some? && e.stack.value != ""
    requires ErrorEnvelope.FindIndex(Strings.Split(e.stack.value), thisFileName) == -1
    ensures var s := Bridge.Settle(k, CallReplyTo(fns, Bridge.Message(handle, Command.Call, [Str(fnName)] + args), invoke, thisFileName),
                                   localStack, captured);
      && (k.origin != Bridge.FromCall ==> s == Bridge.Rejected(k.id, ThrownError(e)))
      && (k.origin == Bridge.FromCall ==> s == Bridge.Rejected(k.id, Bridge.Annotate(ThrownError(e), captured)))
  {
  }
}
