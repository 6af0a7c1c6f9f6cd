// src/runServiceBridgeWorker.ts: the worker side of the bridge. A registry of
// named functions, filled by config routines, and a dispatcher that answers
// every call, config and close message with a reply echoing the message's slot.
module Worker {
  import opened JsValues
  import opened Protocol
  import ErrorEnvelope

  const MissingFunctionName: string := "MissingFunctionError"
  const MissingFunctionMessage: string := "No such function"
  const MissingPortMessage: string := "Missing \"port\""

  /**
   * What running a configurator amounts to: the `add(name, fn)` calls it makes, in
   * order, and how it ends (its resolved value, or what it threw).
   */
  datatype ConfigRoutine = ConfigRoutine(registrations: seq<(string, Value)>, outcome: Completion)

  /** `data.shift()`: the first element (undefined for an empty array) and the rest. */
  function Shift(data: seq<Value>): (r: (Value, seq<Value>))
    ensures data == [] ==> r == (Undefined, [])
    ensures data != [] ==> [r.0] + r.1 == data
  {
    if data == [] then (Undefined, []) else (data[0], data[1..])
  }

  /** `fns[key]`: a missing key reads as undefined. */
  function Lookup(fns: map<string, Value>, key: string): (v: Value)
    ensures key !in fns ==> v == Undefined
    ensures key in fns ==> v == fns[key]
  {
    if key in fns then fns[key] else Undefined
  }

  /**
   * The reply to a call of `fnName` with `args`: a falsy registry entry is a
   * missing function; otherwise the function's result, or the error envelope of
   * what it threw. `invoke` is JavaScript's call of a value (a TypeError for a
   * value that is not callable).
   */
  function CallReply(fns: map<string, Value>, slot: Value, fnName: Value, args: seq<Value>,
                     invoke: (Value, seq<Value>) -> Completion, thisFileName: string): (r: Reply)
    ensures r.slot == slot
    ensures !Truthy(Lookup(fns, JsString(fnName))) ==>
      r == Reply(slot, Some(ErrorReply(MissingFunctionName, MissingFunctionMessage, fnName, None)), Null)
    ensures Truthy(Lookup(fns, JsString(fnName))) && invoke(Lookup(fns, JsString(fnName)), args).Returned? ==>
      r == Reply(slot, None, invoke(Lookup(fns, JsString(fnName)), args).result)
    ensures Truthy(Lookup(fns, JsString(fnName))) && invoke(Lookup(fns, JsString(fnName)), args).Threw? ==>
      r == Reply(slot, Some(ErrorEnvelope.ToErrorReply(invoke(Lookup(fns, JsString(fnName)), args).thrown, thisFileName)), Null)
  {
    var fn := Lookup(fns, JsString(fnName));
    if !Truthy(fn) then
      Reply(slot, Some(ErrorReply(MissingFunctionName, MissingFunctionMessage, fnName, None)), Null)
    else
      match invoke(fn, args)
      case Returned(result) => Reply(slot, None, result)
      case Threw(thrown) => Reply(slot, Some(ErrorEnvelope.ToErrorReply(thrown, thisFileName)), Null)
  }

  /**
   * The registry after the `add` calls `regs`, in order: each one overwrites its
   * name. No entry is ever removed, and every registered name ends up present.
   */
  function RegisterAll(fns: map<string, Value>, regs: seq<(string, Value)>): (r: map<string, Value>)
    ensures fns.Keys <= r.Keys
    ensures forall k :: 0 <= k < |regs| ==> regs[k].0 in r
    decreases |regs|
  {
    if regs == [] then fns
    else RegisterAll(fns, regs[..|regs| - 1])[regs[|regs| - 1].0 := regs[|regs| - 1].1]
  }

  /** The index of the last registration of `name`, or -1. */
  function LastRegistration(regs: seq<(string, Value)>, name: string): (r: int)
    ensures -1 <= r < |regs|
    ensures r >= 0 ==> regs[r].0 == name && forall k :: r < k < |regs| ==> regs[k].0 != name
    ensures r == -1 ==> forall k :: 0 <= k < |regs| ==> regs[k].0 != name
  {
    if regs == [] then -1
    else if regs[|regs| - 1].0 == name then |regs| - 1
    else LastRegistration(regs[..|regs| - 1], name)
  }

  /**
   * After a sequence of `add` calls, a name holds the function of its last
   * registration; a name never registered keeps its previous entry (or stays absent).
   */
  lemma {:induction false} RegisterAllLastWins(fns: map<string, Value>, regs: seq<(string, Value)>, name: string)
    ensures LastRegistration(regs, name) >= 0 ==>
      name in RegisterAll(fns, regs) && RegisterAll(fns, regs)[name] == regs[LastRegistration(regs, name)].1
    ensures LastRegistration(regs, name) == -1 ==>
      (name in RegisterAll(fns, regs) <==> name in fns)
      && (name in fns ==> RegisterAll(fns, regs)[name] == fns[name])
    decreases |regs|
  {
    if regs != [] {
      RegisterAllLastWins(fns, regs[..|regs| - 1], name);
    }
  }

  /** The names `regs` registers. */
  function Names(regs: seq<(string, Value)>): (names: set<string>)
    ensures forall k :: 0 <= k < |regs| ==> regs[k].0 in names
    ensures forall name :: name in names ==> exists k :: 0 <= k < |regs| && regs[k].0 == name
    decreases |regs|
  {
    if regs == [] then {} else Names(regs[..|regs| - 1]) + {regs[|regs| - 1].0}
  }

  /** The registry only ever gains the registered names. */
  lemma {:induction false} RegisterAllKeys(fns: map<string, Value>, regs: seq<(string, Value)>)
    ensures RegisterAll(fns, regs).Keys == fns.Keys + Names(regs)
    decreases |regs|
  {
    if regs != [] {
      RegisterAllKeys(fns, regs[..|regs| - 1]);
    }
  }

  /** The state `runServiceBridgeWorker` closes over. */
  class WorkerRuntime {
    /** `fns`: the registry, a prototype-less record. */
    var fns: map<string, Value>
    /** Every reply posted on the port, in order. */
    var replies: seq<Reply>
    /** Whether `port.close()` has been called. */
    var closed: bool
    /** The runtime's own file, whose frames are cut from error stacks. */
    const thisFileName: string

    /** `runServiceBridgeWorker(port)` for a truthy port: an empty registry, nothing posted. */
    constructor (thisFileName: string)
      ensures fns == map[] && replies == [] && !closed && this.thisFileName == thisFileName
    {
      fns := map[];
      replies := [];
      closed := false;
      this.thisFileName := thisFileName;
    }

    /** `add(name, fn)`: stores `fn` under `name`, overwriting, and returns `name`. */
    method Add(name: string, fn: Value) returns (r: string)
      modifies this`fns
      ensures fns == old(fns)[name := fn]
      ensures r == name
    {
      fns := fns[name := fn];
      r := name;
    }

    /** Running a configurator: its `add` calls take effect in order, whatever its outcome. */
    method RunConfig(routine: ConfigRoutine) returns (outcome: Completion)
      modifies this`fns
      ensures fns == RegisterAll(old(fns), routine.registrations)
      ensures outcome == routine.outcome
    {
      var regs := routine.registrations;
      for n := 0 to |regs|
        invariant fns == RegisterAll(old(fns), regs[..n])
      {
        assert regs[..n + 1][..n] == regs[..n];
        var _ := Add(regs[n].0, regs[n].1);
      }
      assert regs[..|regs|] == regs;
      outcome := routine.outcome;
    }

    /**
     * The `message` handler. The slot and the command tag are shifted off the
     * message; a call shifts the function name and passes the rest as arguments.
     * `configure` stands for compiling and running the configurator source with
     * the base path; a configurator that throws gets no reply. An unknown tag is
     * ignored. Messages arrive only while the port is open.
     */
    method OnMessage(data: seq<Value>, invoke: (Value, seq<Value>) -> Completion,
                     configure: (Value, Value) -> ConfigRoutine)
      requires !closed
      modifies this
      ensures var (slot, afterSlot) := Shift(data);
        var (tag, rest) := Shift(afterSlot);
        && (CommandOf(tag) == Some(Command.Call) ==>
              && fns == old(fns) && !closed
              && replies == old(replies) + [CallReply(fns, slot, Shift(rest).0, Shift(rest).1, invoke, thisFileName)])
        && (CommandOf(tag) == Some(Command.Config) ==>
              var routine := configure(Arg(rest, 0), Arg(rest, 1));
              && fns == RegisterAll(old(fns), routine.registrations) && !closed
              && (routine.outcome.Returned? ==> replies == old(replies) + [Reply(slot, None, routine.outcome.result)])
              && (routine.outcome.Threw? ==> replies == old(replies)))
        && (CommandOf(tag) == Some(Command.Close) ==>
              fns == map[] && closed && replies == old(replies) + [Reply(slot, None, Null)])
        && (CommandOf(tag).None? ==> fns == old(fns) && !closed && replies == old(replies))
    {
      var (slot, afterSlot) := Shift(data);
      var (tag, rest) := Shift(afterSlot);
      var command := CommandOf(tag);
      if command == Some(Command.Call) {
        var (fnName, args) := Shift(rest);
        replies := replies + [CallReply(fns, slot, fnName, args, invoke, thisFileName)];
      } else if command == Some(Command.Config) {
        var outcome := RunConfig(configure(Arg(rest, 0), Arg(rest, 1)));
        if outcome.Returned? {
          replies := replies + [Reply(slot, None, outcome.result)];
        }
      } else if command == Some(Command.Close) {
        fns := map[];
        replies := replies + [Reply(slot, None, Null)];
        closed := true;
      }
    }
  }

  /** `args[k]`: an element of the remaining message, undefined when absent. */
  function Arg(args: seq<Value>, k: nat): (v: Value)
    ensures k < |args| ==> v == args[k]
    ensures |args| <= k ==> v == Undefined
  {
    if k < |args| then args[k] else Undefined
  }

  /**
   * `runServiceBridgeWorker(port)`: a falsy port is refused with an `Error`; any
   * other port gets a fresh runtime.
   */
  method RunServiceBridgeWorker(port: Value, thisFileName: string, errorStack: string)
    returns (w: WorkerRuntime?, thrown: Option<Thrown>)
    ensures !Truthy(port) ==>
      && w == null
      && thrown == Some(ThrownError(ErrorObject("Error", MissingPortMessage, Undefined, Some(errorStack))))
    ensures Truthy(port) ==>
      && w != null && fresh(w) && thrown.None?
      && w.fns == map[] && w.replies == [] && !w.closed && w.thisFileName == thisFileName
  {
    if !Truthy(port) {
      return null, Some(ThrownError(ErrorObject("Error", MissingPortMessage, Undefined, Some(errorStack))));
    }
    w := new WorkerRuntime(thisFileName);
    thrown := None;
  }
}
