// The wire protocol between the coordinator and the worker: the command tags of
// src/BridgeCommand.ts and the reply shapes declared in src/ServiceBridge.ts.
module Protocol {
  import opened JsValues

  /** The three command tags; there is no Connect command. */
  datatype Command = Call | Config | Close {
    function Tag(): (t: int)
      ensures t in {0, 1, -1}
    {
      match this
      case Call => 0
      case Config => 1
      case Close => -1
    }
  }

  /** The tag of a received message identifies at most one command. */
  function CommandOf(tag: Value): (c: Option<Command>)
    ensures c.Some? <==> (tag == Num(0) || tag == Num(1) || tag == Num(-1))
    ensures c.Some? ==> tag == Num(c.value.Tag())
  {
    if tag == Num(0) then Some(Call)
    else if tag == Num(1) then Some(Config)
    else if tag == Num(-1) then Some(Close)
    else None
  }

  /** Tags are distinct, so decoding the tag of a command gives the command back. */
  lemma CommandOfTag(c: Command)
    ensures CommandOf(Num(c.Tag())) == Some(c)
  {
  }

  /** `{ name, message, cause?, stack? }`: an absent cause is `Undefined`. */
  datatype ErrorReply = ErrorReply(name: string, message: string, cause: Value, stack: Option<string>)

  /** `[slot, null, result]` or `[slot, errorEnvelope, null]`. */
  datatype Reply = Reply(slot: Value, error: Option<ErrorReply>, result: Value)
}
