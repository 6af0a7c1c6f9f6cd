// src/toErrorReply.ts: turning whatever a registered function threw into the
// error envelope that crosses the channel, with the runtime's own frames cut off
// the stack. src/runServiceBridgeWorker.ts:51-69 builds the same envelope inline.
module ErrorEnvelope {
  import opened JsValues
  import opened Strings
  import opened Protocol

  /** `lines.findIndex(x => x.includes(file))`: the first line naming the file, or -1. */
  function FindIndex(lines: seq<string>, file: string): (r: int)
    ensures -1 <= r < |lines|
    ensures r == -1 <==> forall k :: 0 <= k < |lines| ==> !Contains(lines[k], file)
    ensures r >= 0 ==> Contains(lines[r], file) && forall k :: 0 <= k < r ==> !Contains(lines[k], file)
  {
    if lines == [] then -1
    else if Contains(lines[0], file) then 0
    else
      var r := FindIndex(lines[1..], file);
      if r == -1 then -1 else r + 1
  }

  /**
   * The stack with every line from the first one naming `file` on dropped, or the
   * stack itself when no line names it.
   */
  function TrimStack(stack: string, file: string): (r: string)
    ensures FindIndex(Split(stack), file) == -1 ==> r == stack
    ensures FindIndex(Split(stack), file) == 0 ==> r == ""
    ensures FindIndex(Split(stack), file) >= 1 ==>
      Split(r) == Split(stack)[..FindIndex(Split(stack), file)]
  {
    var lines := Split(stack);
    var cut := FindIndex(lines, file);
    if cut == -1 then stack
    else if cut == 0 then Join(lines[..0])
    else SplitJoin(lines[..cut]); Join(lines[..cut])
  }

  /** `if (stack) stack = trim(stack)`: an absent or empty stack is passed on as it is. */
  function TrimOptionalStack(stack: Option<string>, file: string): (r: Option<string>)
    ensures stack.None? ==> r.None?
    ensures stack == Some("") ==> r == Some("")
    ensures stack.Some? && stack.value != "" ==> r == Some(TrimStack(stack.value, file))
  {
    match stack
    case None => None
    case Some(s) => if s == "" then stack else Some(TrimStack(s, file))
  }

  /**
   * `toErrorReply(err)`: an `Error` keeps its name, message and cause and gets its
   * stack trimmed; any other thrown value becomes `{ name: 'Error', message: String(err) }`.
   */
  function ToErrorReply(thrown: Thrown, file: string): (r: ErrorReply)
    ensures thrown.ThrownError? ==>
      && r.name == thrown.error.name
      && r.message == thrown.error.message
      && r.cause == thrown.error.cause
      && r.stack == TrimOptionalStack(thrown.error.stack, file)
    ensures thrown.ThrownValue? ==>
      r == ErrorReply("Error", JsString(thrown.value), Undefined, None)
  {
    match thrown
    case ThrownError(e) => ErrorReply(e.name, e.message, e.cause, TrimOptionalStack(e.stack, file))
    case ThrownValue(v) => ErrorReply("Error", JsString(v), Undefined, None)
  }

  /** The trimmed stack is made of the leading lines of the original, so it is a prefix of it. */
  lemma TrimIsLinePrefix(stack: string, file: string)
    ensures exists k :: 0 <= k <= |Split(stack)| && TrimStack(stack, file) == Join(Split(stack)[..k])
    ensures TrimStack(stack, file) <= stack
  {
    var lines := Split(stack);
    var cut := FindIndex(lines, file);
    JoinSplit(stack);
    assert lines[..|lines|] == lines;
    if cut == -1 {
      assert TrimStack(stack, file) == Join(lines[..|lines|]);
    } else {
      JoinPrefix(lines, cut);
    }
  }

  /** No line of a trimmed stack names the runtime file (for a non-empty file name). */
  lemma TrimDropsRuntimeFrames(stack: string, file: string)
    requires file != ""
    ensures forall k :: 0 <= k < |Split(TrimStack(stack, file))| ==> !Contains(Split(TrimStack(stack, file))[k], file)
  {
    var lines := Split(stack);
    var cut := FindIndex(lines, file);
    if cut == -1 {
    } else if cut == 0 {
      assert Split("") == [""];
      assert !Contains("", file);
    } else {
      SplitJoin(lines[..cut]);
    }
  }
}
