// src/ServiceBridgeCallError.ts: the coordinator rebuilds an `Error` from the
// envelope a reply carries.
module CallError {
  import opened JsValues
  import opened Strings
  import opened Protocol
  import ErrorEnvelope

  /**
   * `new ServiceBridgeCallError(reply)`. `localStack` is the stack the `Error`
   * constructor records where the error is built; it is kept unless the envelope
   * brings a non-empty stack of its own.
   */
  function FromReply(reply: ErrorReply, localStack: string): (e: ErrorObject)
    ensures e.name == reply.name
    ensures e.message == reply.message
    ensures Truthy(reply.cause) ==> e.cause == reply.cause
    ensures !Truthy(reply.cause) ==> e.cause == Undefined
    ensures reply.stack.Some? && reply.stack.value != "" ==> e.stack == reply.stack
    ensures reply.stack.None? || reply.stack == Some("") ==> e.stack == Some(localStack)
  {
    var cause := if Truthy(reply.cause) then reply.cause else Undefined;
    var stack := if reply.stack.Some? && reply.stack.value != "" then reply.stack.value else localStack;
    ErrorObject(reply.name, reply.message, cause, Some(stack))
  }

  /**
   * Marshalling an `Error` and rebuilding it on the other side gives the same error
   * back, provided its cause is truthy or absent and its stack is non-empty and
   * holds no frame of the runtime file.
   */
  lemma RoundTrip(e: ErrorObject, file: string, localStack: string)
    requires Truthy(e.cause) || e.cause == Undefined
    requires e.stack.Some? && e.stack.value != ""
    requires ErrorEnvelope.FindIndex(Split(e.stack.value), file) == -1
    ensures FromReply(ErrorEnvelope.ToErrorReply(ThrownError(e), file), localStack) == e
  {
  }

  /** A thrown non-`Error` value arrives as an `Error` named "Error" whose message is `String(value)`. */
  lemma NonErrorArrivesAsError(v: Value, file: string, localStack: string)
    ensures FromReply(ErrorEnvelope.ToErrorReply(ThrownValue(v), file), localStack)
         == ErrorObject("Error", JsString(v), Undefined, Some(localStack))
  {
  }
}
