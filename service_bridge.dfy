// src/ServiceBridge.ts: the coordinator side of the bridge. Every request takes a
// slot of a SlotBuffer holding the continuation of its promise, is posted as
// `[handle, command, ...args]`, and is settled when the reply carrying that
// handle comes back.
module Bridge {
  import opened JsValues
  import opened Strings
  import opened Protocol
  import opened Slots
  import CallError

  /** The default `maxSlots` of the constructor. */
  const DefaultMaxSlots: nat := 1024

  /** The line joining a worker-side stack to the caller's stack. */
  const BoundaryMarker: string := "\n    [\U{26A1}\U{FE0F} ServiceBridge Boundary \U{26A1}\U{FE0F}]"

  const CallerPathMessage: string := "Failed to determine caller path."

  /** Which public method issued a request; only `call` annotates its rejections. */
  datatype Origin = FromCall | FromConfig | FromClose

  /** The `{ resolve, reject }` pair stored in a slot; `id` stands for the promise's identity. */
  datatype Continuation = Continuation(id: nat, origin: Origin)

  /** How a continuation was settled. */
  datatype Settlement = Resolved(id: nat, result: Value) | Rejected(id: nat, reason: Thrown)

  /** What a public method hands back: a promise awaiting a continuation, or an exception. */
  datatype Posted = Pending(id: nat) | Failed(thrown: Thrown)

  /** A plain `Error` built on the coordinator side, with the stack the runtime gives it. */
  function NewError(message: string, stack: string): (t: Thrown)
    ensures t.ThrownError? && t.error.name == "Error" && t.error.message == message
  {
    ThrownError(ErrorObject("Error", message, Undefined, Some(stack)))
  }

  /** `asPath(urlOrPath)`: file URLs go through `fileURLToPath`, anything else is a path already. */
  function AsPath(urlOrPath: string, fileUrlToPath: string -> string): (p: string)
    ensures StartsWith(urlOrPath, "file://") ==> p == fileUrlToPath(urlOrPath)
    ensures !StartsWith(urlOrPath, "file://") ==> p == urlOrPath
  {
    if StartsWith(urlOrPath, "file://") then fileUrlToPath(urlOrPath) else urlOrPath
  }

  /**
   * The base directory `config` sends. An explicit base names a module file (its
   * directory is used) or a directory; without one it is the directory of the
   * caller's file, `callerFile` being what the stack inspection of `calleeRoot`
   * found. None is the 'Failed to determine caller path.' error.
   */
  function BaseUrl(base: Option<string>, callerFile: Option<string>,
                   dirname: string -> string, fileUrlToPath: string -> string): (r: Option<string>)
    ensures base.Some? ==> r.Some?
    ensures base.Some? && (EndsWith(AsPath(base.value, fileUrlToPath), ".js") || EndsWith(AsPath(base.value, fileUrlToPath), ".ts"))
      ==> r == Some(dirname(AsPath(base.value, fileUrlToPath)))
    ensures base.Some? && !EndsWith(AsPath(base.value, fileUrlToPath), ".js") && !EndsWith(AsPath(base.value, fileUrlToPath), ".ts")
      ==> r == Some(AsPath(base.value, fileUrlToPath))
    ensures base.None? ==> (r.None? <==> callerFile.None? || callerFile == Some(""))
    ensures base.None? && r.Some? ==> r.value == dirname(AsPath(callerFile.value, fileUrlToPath))
  {
    match base
    case Some(b) =>
      var path := AsPath(b, fileUrlToPath);
      Some(if EndsWith(path, ".js") || EndsWith(path, ".ts") then dirname(path) else path)
    case None =>
      if callerFile.None? || callerFile.value == "" then None
      else Some(dirname(AsPath(callerFile.value, fileUrlToPath)))
  }

  /**
   * What `call`'s catch block does to an exception before rethrowing it: an
   * `Error` with a non-empty stack gets the boundary line and the caller's stack
   * (`captured` without its leading 'Error') appended; anything else is unchanged.
   */
  function Annotate(t: Thrown, captured: string): (r: Thrown)
    ensures t.ThrownValue? || t.error.stack.None? || t.error.stack == Some("") ==> r == t
    ensures t.ThrownError? && t.error.stack.Some? && t.error.stack.value != "" ==>
      && r.ThrownError?
      && r.error == t.error.(stack := r.error.stack)
      && r.error.stack == Some(t.error.stack.value + BoundaryMarker + Substring(captured, |"Error"|))
  {
    match t
    case ThrownError(e) =>
      if e.stack.Some? && e.stack.value != "" then
        ThrownError(e.(stack := Some(e.stack.value + BoundaryMarker + Substring(captured, |"Error"|))))
      else t
    case ThrownValue(_) => t
  }

  /** The annotated stack still begins with the worker-side stack, and the boundary follows it. */
  lemma AnnotateKeepsRemoteStack(e: ErrorObject, captured: string)
    requires e.stack.Some? && e.stack.value != ""
    ensures Annotate(ThrownError(e), captured).error.stack.value[..|e.stack.value|] == e.stack.value
    ensures Contains(Annotate(ThrownError(e), captured).error.stack.value, BoundaryMarker)
  {
    var s := Annotate(ThrownError(e), captured).error.stack.value;
    var rest := BoundaryMarker + Substring(captured, |"Error"|);
    assert s == e.stack.value + rest;
    ContainsAt(s, BoundaryMarker, |e.stack.value|);
  }

  /** A needle occurring at position `at` is contained in the haystack. */
  lemma {:induction false} ContainsAt(hay: string, needle: string, at: nat)
    requires at + |needle| <= |hay| && hay[at..at + |needle|] == needle
    ensures Contains(hay, needle)
    decreases at
  {
    if at == 0 {
      assert needle <= hay;
    } else {
      assert hay[1..][at - 1..at - 1 + |needle|] == hay[at..at + |needle|];
      ContainsAt(hay[1..], needle, at - 1);
    }
  }

  /**
   * `#onMessage` for a reply that found its continuation `k`: a truthy error
   * envelope rejects with the rebuilt `ServiceBridgeCallError` (annotated when the
   * request came from `call`), otherwise the result resolves the promise.
   */
  function Settle(k: Continuation, reply: Reply, localStack: string, captured: string): (s: Settlement)
    ensures s.id == k.id
    ensures reply.error.None? <==> s == Resolved(k.id, reply.result)
    ensures reply.error.Some? && k.origin != FromCall ==>
      s == Rejected(k.id, ThrownError(CallError.FromReply(reply.error.value, localStack)))
    ensures reply.error.Some? && k.origin == FromCall ==>
      s == Rejected(k.id, Annotate(ThrownError(CallError.FromReply(reply.error.value, localStack)), captured))
  {
    match reply.error
    case None => Resolved(k.id, reply.result)
    case Some(envelope) =>
      var err := ThrownError(CallError.FromReply(envelope, localStack));
      Rejected(k.id, if k.origin == FromCall then Annotate(err, captured) else err)
  }

  /** A rejected `call` carries the worker's name, message and stack, then the boundary. */
  lemma CallRejectionKeepsWorkerError(k: Continuation, envelope: ErrorReply, result: Value, localStack: string, captured: string)
    requires k.origin == FromCall
    requires envelope.stack.Some? && envelope.stack.value != ""
    ensures Settle(k, Reply(BigInt(0), Some(envelope), result), localStack, captured).Rejected?
    ensures var e := Settle(k, Reply(BigInt(0), Some(envelope), result), localStack, captured).reason.error;
      && e.name == envelope.name && e.message == envelope.message
      && e.stack.value[..|envelope.stack.value|] == envelope.stack.value
      && Contains(e.stack.value, BoundaryMarker)
  {
    var err := CallError.FromReply(envelope, localStack);
    AnnotateKeepsRemoteStack(err, captured);
  }

  /** `[handle, command, ...args]`, the message `#postMessage` posts. */
  function Message(handle: nat, command: Command, args: seq<Value>): (m: seq<Value>)
    ensures |m| == 2 + |args| && m[0] == BigInt(handle) && CommandOf(m[1]) == Some(command)
    ensures m[2..] == args
  {
    CommandOfTag(command);
    [BigInt(handle), Num(command.Tag())] + args
  }

  /**
   * The bookkeeping of continuations over the slot contents `pending`: every
   * identity was issued below `nextId`, pending continuations are told apart by
   * their identities, none of them is settled yet and none is settled twice.
   */
  ghost predicate AtMostOnce(pending: seq<Option<Continuation>>, settled: seq<Settlement>, nextId: nat) {
    && (forall j :: 0 <= j < |pending| && pending[j].Some? ==> pending[j].value.id < nextId)
    && (forall j, j' :: 0 <= j < |pending| && 0 <= j' < |pending| && j != j' && pending[j].Some? && pending[j'].Some?
          ==> pending[j].value.id != pending[j'].value.id)
    && (forall k :: 0 <= k < |settled| ==> settled[k].id < nextId)
    && (forall j, k :: 0 <= j < |pending| && pending[j].Some? && 0 <= k < |settled| ==> settled[k].id != pending[j].value.id)
    && (forall k, k' :: 0 <= k < k' < |settled| ==> settled[k].id != settled[k'].id)
  }

  /** Storing a continuation with the next identity in a free slot keeps the bookkeeping. */
  lemma IssuePreservesAtMostOnce(pending: seq<Option<Continuation>>, settled: seq<Settlement>, nextId: nat,
                                 i: nat, origin: Origin)
    requires AtMostOnce(pending, settled, nextId)
    requires i < |pending| && pending[i].None?
    ensures AtMostOnce(pending[i := Some(Continuation(nextId, origin))], settled, nextId + 1)
  {
  }

  /** Taking a pending continuation out of its slot and settling it keeps the bookkeeping. */
  lemma SettlePreservesAtMostOnce(pending: seq<Option<Continuation>>, settled: seq<Settlement>, nextId: nat,
                                  i: nat, s: Settlement)
    requires AtMostOnce(pending, settled, nextId)
    requires i < |pending| && pending[i].Some? && s.id == pending[i].value.id
    ensures AtMostOnce(pending[i := None], settled + [s], nextId)
  {
    var pending' := pending[i := None];
    var settled' := settled + [s];
    forall k, k' | 0 <= k < k' < |settled'| ensures settled'[k].id != settled'[k'].id {
      if k' == |settled| {
        assert settled'[k] == settled[k];
      }
    }
  }

  class ServiceBridge {
    /** The pending continuations. */
    const slots: SlotBuffer<Continuation>
    /** Every message posted on the port, in order. */
    var outbox: seq<seq<Value>>
    /** Every settlement of a continuation, in order. */
    var settled: seq<Settlement>
    /** The identity the next continuation gets. */
    var nextId: nat

    /** The continuation pending in slot `j`. */
    ghost predicate PendingAt(j: int)
      reads slots, slots.data
    {
      0 <= j < slots.data.Length && slots.data[j].Some?
    }

    /** Handle `h` is current and its slot holds continuation `k`: a reply echoing `h` settles `k`. */
    ghost predicate Holds(h: int, k: Continuation)
      reads slots, slots.gen, slots.data
    {
      slots.Matches(h) && Decode(h).1 < slots.data.Length && slots.data[Decode(h).1] == Some(k)
    }

    /** The slot buffer is consistent and no continuation is settled twice. */
    ghost predicate Valid()
      reads this`settled, this`nextId, slots, slots.data, slots.gen, slots.freeSlots
    {
      && slots.Valid()
      && AtMostOnce(slots.data[..], settled, nextId)
    }

    /** `new ServiceBridge(port, maxSlots)`: nothing posted, nothing pending. */
    constructor (maxSlots: nat := DefaultMaxSlots)
      requires maxSlots <= HandleShift
      ensures Valid() && fresh(slots) && fresh(slots.data) && fresh(slots.gen) && fresh(slots.freeSlots)
      ensures slots.capacity == maxSlots
      ensures forall j :: 0 <= j < maxSlots ==> !PendingAt(j)
      ensures outbox == [] && settled == [] && nextId == 0
    {
      slots := new SlotBuffer<Continuation>(maxSlots);
      outbox := [];
      settled := [];
      nextId := 0;
    }

    /**
     * The slot-taking half of `#postMessage`: a fresh continuation is stored in the
     * top free slot, or, with every slot taken, nothing changes.
     */
    method Issue(origin: Origin) returns (h: Option<nat>)
      requires Valid()
      modifies this`nextId, slots, slots.data, slots.gen
      ensures Valid()
      ensures h.None? <==> old(slots.nextFreeSlot) == slots.capacity
      ensures h.None? ==>
        && nextId == old(nextId) && slots.nextFreeSlot == old(slots.nextFreeSlot)
        && slots.data[..] == old(slots.data[..]) && slots.gen[..] == old(slots.gen[..])
      ensures h.Some? ==>
        var i := old(slots.freeSlots[slots.nextFreeSlot]);
        && i < slots.capacity
        && old(slots.data[i]).None?
        && slots.data[..] == old(slots.data[..])[i := Some(Continuation(old(nextId), origin))]
        && slots.gen[..] == old(slots.gen[..])[i := old(slots.gen[i]) + 1]
        && h.value == Encode(slots.gen[i], i)
        && nextId == old(nextId) + 1
        && slots.nextFreeSlot == old(slots.nextFreeSlot) + 1
    {
      ghost var before := slots.data[..];
      ghost var top := if slots.nextFreeSlot < slots.capacity then slots.freeSlots[slots.nextFreeSlot] else 0;
      h := AcquireFree(slots, Continuation(nextId, origin));
      if h.Some? {
        assert top == old(slots.freeSlots[slots.nextFreeSlot]);
        assert slots.data[..] == before[top := Some(Continuation(nextId, origin))];
        IssuePreservesAtMostOnce(before, settled, nextId, top, origin);
        nextId := nextId + 1;
        assert AtMostOnce(slots.data[..], settled, nextId);
      }
      assert slots.Valid();
    }

    /**
     * `#postMessage(command, ...args)`: a slot is taken for a fresh continuation,
     * then `[handle, command, ...args]` is posted. With every slot taken the
     * capacity error is thrown and nothing changes. When posting itself throws
     * (`sendFailure`), the slot stays taken: nothing will ever release it.
     */
    method PostMessage(command: Command, args: seq<Value>, origin: Origin,
                       errorStack: string, sendFailure: Option<Thrown>) returns (p: Posted)
      requires Valid()
      modifies this, slots, slots.data, slots.gen
      ensures Valid()
      ensures settled == old(settled)
      ensures old(slots.nextFreeSlot) == slots.capacity ==>
        && p == Failed(NewError(CapacityExceededMessage, errorStack))
        && outbox == old(outbox) && nextId == old(nextId) && slots.nextFreeSlot == old(slots.nextFreeSlot)
        && slots.data[..] == old(slots.data[..]) && slots.gen[..] == old(slots.gen[..])
      ensures old(slots.nextFreeSlot) < slots.capacity ==>
        var i := old(slots.freeSlots[slots.nextFreeSlot]);
        var k := Continuation(old(nextId), origin);
        && i < slots.capacity
        && old(slots.data[i]).None?
        && slots.data[..] == old(slots.data[..])[i := Some(k)]
        && slots.gen[..] == old(slots.gen[..])[i := old(slots.gen[i]) + 1]
        && nextId == old(nextId) + 1
        && slots.nextFreeSlot == old(slots.nextFreeSlot) + 1
        && (sendFailure.None? ==>
              p == Pending(k.id)
              && outbox == old(outbox) + [Message(Encode(slots.gen[i], i), command, args)])
        && (sendFailure.Some? ==> p == Failed(sendFailure.value) && outbox == old(outbox))
    {
      var id := nextId;
      var h := Issue(origin);
      if h.None? {
        p := Failed(NewError(CapacityExceededMessage, errorStack));
      } else if sendFailure.Some? {
        p := Failed(sendFailure.value);
      } else {
        outbox := outbox + [Message(h.value, command, args)];
        p := Pending(id);
      }
    }

    /**
     * `call(fn, ...args)`. The method is async, so a capacity error or a failed
     * post becomes a rejection, which passes through the boundary annotation.
     */
    method Call(fnName: string, args: seq<Value>, errorStack: string, captured: string,
                sendFailure: Option<Thrown>) returns (p: Posted)
      requires Valid()
      modifies this, slots, slots.data, slots.gen
      ensures Valid()
      ensures settled == old(settled)
      ensures old(slots.nextFreeSlot) == slots.capacity ==>
        && p == Failed(Annotate(NewError(CapacityExceededMessage, errorStack), captured))
        && outbox == old(outbox) && nextId == old(nextId) && slots.nextFreeSlot == old(slots.nextFreeSlot)
        && slots.data[..] == old(slots.data[..]) && slots.gen[..] == old(slots.gen[..])
      ensures old(slots.nextFreeSlot) < slots.capacity ==>
        var i := old(slots.freeSlots[slots.nextFreeSlot]);
        && i < slots.capacity
        && old(slots.data[i]).None?
        && slots.data[..] == old(slots.data[..])[i := Some(Continuation(old(nextId), FromCall))]
        && slots.gen[..] == old(slots.gen[..])[i := old(slots.gen[i]) + 1]
        && nextId == old(nextId) + 1
        && slots.nextFreeSlot == old(slots.nextFreeSlot) + 1
      ensures old(slots.nextFreeSlot) < slots.capacity && sendFailure.None? ==>
        var i := old(slots.freeSlots[slots.nextFreeSlot]);
        && p == Pending(old(nextId))
        && outbox == old(outbox) + [Message(Encode(slots.gen[i], i), Command.Call, [Str(fnName)] + args)]
      ensures old(slots.nextFreeSlot) < slots.capacity && sendFailure.Some? ==>
        p == Failed(Annotate(sendFailure.value, captured)) && outbox == old(outbox)
    {
      p := PostMessage(Command.Call, [Str(fnName)] + args, FromCall, errorStack, sendFailure);
      if p.Failed? {
        p := Failed(Annotate(p.thrown, captured));
      }
    }

    /**
     * `config(baseUrl?, fn)`: `fnDef` is the configurator's source text. Not async:
     * a failure to find the caller's path, the capacity error and a failed post
     * are thrown as they are.
     */
    method Config(base: Option<string>, fnDef: string, callerFile: Option<string>,
                  dirname: string -> string, fileUrlToPath: string -> string,
                  errorStack: string, sendFailure: Option<Thrown>) returns (p: Posted)
      requires Valid()
      modifies this, slots, slots.data, slots.gen
      ensures Valid()
      ensures settled == old(settled)
      ensures BaseUrl(base, callerFile, dirname, fileUrlToPath).None? ==>
        && p == Failed(NewError(CallerPathMessage, errorStack))
        && outbox == old(outbox) && nextId == old(nextId) && slots.nextFreeSlot == old(slots.nextFreeSlot)
        && slots.data[..] == old(slots.data[..]) && slots.gen[..] == old(slots.gen[..])
      ensures BaseUrl(base, callerFile, dirname, fileUrlToPath).Some? && old(slots.nextFreeSlot) == slots.capacity ==>
        && p == Failed(NewError(CapacityExceededMessage, errorStack))
        && outbox == old(outbox) && nextId == old(nextId) && slots.nextFreeSlot == old(slots.nextFreeSlot)
        && slots.data[..] == old(slots.data[..]) && slots.gen[..] == old(slots.gen[..])
      ensures BaseUrl(base, callerFile, dirname, fileUrlToPath).Some? && old(slots.nextFreeSlot) < slots.capacity ==>
        var i := old(slots.freeSlots[slots.nextFreeSlot]);
        && i < slots.capacity
        && old(slots.data[i]).None?
        && slots.data[..] == old(slots.data[..])[i := Some(Continuation(old(nextId), FromConfig))]
        && slots.gen[..] == old(slots.gen[..])[i := old(slots.gen[i]) + 1]
        && nextId == old(nextId) + 1
        && slots.nextFreeSlot == old(slots.nextFreeSlot) + 1
      ensures BaseUrl(base, callerFile, dirname, fileUrlToPath).Some? && old(slots.nextFreeSlot) < slots.capacity && sendFailure.Some? ==>
        p == Failed(sendFailure.value) && outbox == old(outbox)
      ensures BaseUrl(base, callerFile, dirname, fileUrlToPath).Some? && old(slots.nextFreeSlot) < slots.capacity && sendFailure.None? ==>
        var i := old(slots.freeSlots[slots.nextFreeSlot]);
        && p == Pending(old(nextId))
        && outbox == old(outbox) + [Message(Encode(slots.gen[i], i), Command.Config,
                                    [Str(fnDef), Str(BaseUrl(base, callerFile, dirname, fileUrlToPath).value)])]
    {
      var baseUrl := BaseUrl(base, callerFile, dirname, fileUrlToPath);
      if baseUrl.None? {
        return Failed(NewError(CallerPathMessage, errorStack));
      }
      p := PostMessage(Command.Config, [Str(fnDef), Str(baseUrl.value)], FromConfig, errorStack, sendFailure);
    }

    /** `close()`: posts the close command; its promise is dropped, its failures thrown. */
    method Close(errorStack: string, sendFailure: Option<Thrown>) returns (thrown: Option<Thrown>)
      requires Valid()
      modifies this, slots, slots.data, slots.gen
      ensures Valid()
      ensures settled == old(settled)
      ensures old(slots.nextFreeSlot) == slots.capacity ==>
        && thrown == Some(NewError(CapacityExceededMessage, errorStack))
        && outbox == old(outbox) && nextId == old(nextId) && slots.nextFreeSlot == old(slots.nextFreeSlot)
        && slots.data[..] == old(slots.data[..]) && slots.gen[..] == old(slots.gen[..])
      ensures old(slots.nextFreeSlot) < slots.capacity ==>
        var i := old(slots.freeSlots[slots.nextFreeSlot]);
        && i < slots.capacity
        && old(slots.data[i]).None?
        && slots.data[..] == old(slots.data[..])[i := Some(Continuation(old(nextId), FromClose))]
        && slots.gen[..] == old(slots.gen[..])[i := old(slots.gen[i]) + 1]
        && nextId == old(nextId) + 1
        && slots.nextFreeSlot == old(slots.nextFreeSlot) + 1
        && thrown == sendFailure
        && (sendFailure.Some? ==> outbox == old(outbox))
        && (sendFailure.None? ==> outbox == old(outbox) + [Message(Encode(slots.gen[i], i), Command.Close, [])])
    {
      var p := PostMessage(Command.Close, [], FromClose, errorStack, sendFailure);
      thrown := if p.Failed? then Some(p.thrown) else None;
    }

    /**
     * `#onMessage([slot, error, result])`: a reply whose handle is stale or out of
     * range is dropped; otherwise its continuation leaves the slot buffer and is
     * settled once. `localStack` is the stack a rebuilt error records, `captured`
     * the caller's stack `call` appends.
     */
    method OnMessage(reply: Reply, localStack: string, captured: string)
      requires Valid()
      requires reply.slot.BigInt?
      requires slots.NotReleasedTwice(reply.slot.big)
      modifies this, slots, slots.data, slots.freeSlots
      ensures Valid()
      ensures outbox == old(outbox) && nextId == old(nextId)
      ensures !old(slots.Matches(reply.slot.big)) ==>
        settled == old(settled) && slots.data[..] == old(slots.data[..])
      ensures old(slots.Matches(reply.slot.big)) ==>
        var i := Decode(reply.slot.big).1;
        && old(PendingAt(i))
        && settled == old(settled) + [Settle(old(slots.data[i].value), reply, localStack, captured)]
        && slots.data[..] == old(slots.data[..])[i := None]
    {
      ghost var before := slots.data[..];
      var r := slots.Release(reply.slot.big);
      if r.None? {
        return;
      }
      ghost var i := Decode(reply.slot.big).1;
      var settlement := Settle(r.value, reply, localStack, captured);
      SettlePreservesAtMostOnce(before, settled, nextId, i, settlement);
      settled := settled + [settlement];
    }
  }

  /**
   * A request's reply settles the request's own continuation: after a successful
   * `call`, the reply echoing the posted handle resolves or rejects exactly the
   * promise `call` returned.
   */
  method CallThenReply(bridge: ServiceBridge, fnName: string, args: seq<Value>, errorStack: string,
                       error: Option<ErrorReply>, result: Value, localStack: string, captured: string)
    returns (p: Posted)
    requires bridge.Valid()
    requires bridge.slots.nextFreeSlot < bridge.slots.capacity
    modifies bridge, bridge.slots, bridge.slots.data, bridge.slots.gen, bridge.slots.freeSlots
    ensures bridge.Valid()
    ensures p == Pending(old(bridge.nextId))
    ensures |bridge.outbox| == |old(bridge.outbox)| + 1 && |bridge.outbox[|bridge.outbox| - 1]| >= 2
    ensures bridge.settled == old(bridge.settled) +
      [Settle(Continuation(p.id, FromCall), Reply(bridge.outbox[|bridge.outbox| - 1][0], error, result), localStack, captured)]
  {
    p := bridge.Call(fnName, args, errorStack, captured, None);
    var message := bridge.outbox[|bridge.outbox| - 1];
    var reply := Reply(message[0], error, result);
    bridge.OnMessage(reply, localStack, captured);
  }

  /**
   * A successful `call` whose posted handle `h` now holds the call's continuation,
   * while a continuation `other` held before under handle `o` is still held.
   */
  method CallHolding(bridge: ServiceBridge, fnName: string, args: seq<Value>, errorStack: string, captured: string,
                     o: int, other: Continuation)
    returns (p: Posted, h: nat)
    requires bridge.Valid()
    requires bridge.slots.nextFreeSlot < bridge.slots.capacity
    modifies bridge, bridge.slots, bridge.slots.data, bridge.slots.gen
    ensures bridge.Valid()
    ensures p == Pending(old(bridge.nextId)) && bridge.nextId == old(bridge.nextId) + 1
    ensures bridge.slots.nextFreeSlot == old(bridge.slots.nextFreeSlot) + 1
    ensures bridge.settled == old(bridge.settled)
    ensures bridge.outbox == old(bridge.outbox) + [Message(h, Command.Call, [Str(fnName)] + args)]
    ensures bridge.Holds(h, Continuation(p.id, FromCall))
    ensures old(bridge.Holds(o, other)) ==> bridge.Holds(o, other)
  {
    var i := bridge.slots.freeSlots[bridge.slots.nextFreeSlot];
    p := bridge.Call(fnName, args, errorStack, captured, None);
    h := Encode(bridge.slots.gen[i], i);
  }

  /**
   * The reply echoing a held handle `h` settles exactly its continuation `k`; a
   * different continuation `other` held under handle `o` is still held.
   */
  method ReplyTo(bridge: ServiceBridge, h: nat, k: Continuation, error: Option<ErrorReply>, result: Value,
                 localStack: string, captured: string, o: int, other: Continuation)
    requires bridge.Valid() && bridge.Holds(h, k)
    modifies bridge, bridge.slots, bridge.slots.data, bridge.slots.freeSlots
    ensures bridge.Valid()
    ensures bridge.settled == old(bridge.settled) + [Settle(k, Reply(BigInt(h), error, result), localStack, captured)]
    ensures bridge.outbox == old(bridge.outbox) && bridge.nextId == old(bridge.nextId)
    ensures old(bridge.Holds(o, other)) && other != k ==> bridge.Holds(o, other)
  {
    bridge.OnMessage(Reply(BigInt(h), error, result), localStack, captured);
  }

  /** Two successful `call`s in a row: each posted handle holds its own call's continuation. */
  method CallTwice(bridge: ServiceBridge, fnA: string, argsA: seq<Value>, fnB: string, argsB: seq<Value>,
                   errorStack: string, captured: string)
    returns (pA: Posted, hA: nat, pB: Posted, hB: nat)
    requires bridge.Valid()
    requires bridge.slots.nextFreeSlot + 2 <= bridge.slots.capacity
    modifies bridge, bridge.slots, bridge.slots.data, bridge.slots.gen
    ensures bridge.Valid()
    ensures pA == Pending(old(bridge.nextId)) && pB == Pending(old(bridge.nextId) + 1)
    ensures bridge.settled == old(bridge.settled)
    ensures bridge.outbox == old(bridge.outbox) +
      [Message(hA, Command.Call, [Str(fnA)] + argsA), Message(hB, Command.Call, [Str(fnB)] + argsB)]
    ensures bridge.Holds(hA, Continuation(pA.id, FromCall)) && bridge.Holds(hB, Continuation(pB.id, FromCall))
  {
    ghost var outbox0 := bridge.outbox;
    pA, hA := CallHolding(bridge, fnA, argsA, errorStack, captured, 0, Continuation(0, FromCall));
    pB, hB := CallHolding(bridge, fnB, argsB, errorStack, captured, hA, Continuation(pA.id, FromCall));
    assert bridge.outbox == outbox0 + [Message(hA, Command.Call, [Str(fnA)] + argsA)]
                                    + [Message(hB, Command.Call, [Str(fnB)] + argsB)];
  }

  /**
   * Two requests in flight together, answered out of order: call A, call B, the
   * reply to B, then the reply to A. Each reply settles its own request's promise,
   * whatever the order the replies arrive in.
   */
  method TwoCallsOutOfOrder(bridge: ServiceBridge, fnA: string, argsA: seq<Value>, fnB: string, argsB: seq<Value>,
                            errorStack: string, captured: string, localStack: string,
                            errorA: Option<ErrorReply>, resultA: Value, errorB: Option<ErrorReply>, resultB: Value)
    returns (pA: Posted, pB: Posted)
    requires bridge.Valid()
    requires bridge.slots.nextFreeSlot + 2 <= bridge.slots.capacity
    modifies bridge, bridge.slots, bridge.slots.data, bridge.slots.gen, bridge.slots.freeSlots
    ensures bridge.Valid()
    ensures pA == Pending(old(bridge.nextId)) && pB == Pending(old(bridge.nextId) + 1)
    ensures |bridge.outbox| == |old(bridge.outbox)| + 2
    ensures var a := bridge.outbox[|old(bridge.outbox)|];
            var b := bridge.outbox[|old(bridge.outbox)| + 1];
      && |a| >= 2 && |b| >= 2
      && bridge.settled == old(bridge.settled) + [
           Settle(Continuation(pB.id, FromCall), Reply(b[0], errorB, resultB), localStack, captured),
           Settle(Continuation(pA.id, FromCall), Reply(a[0], errorA, resultA), localStack, captured)]
  {
    var hA, hB;
    pA, hA, pB, hB := CallTwice(bridge, fnA, argsA, fnB, argsB, errorStack, captured);
    var kA, kB := Continuation(pA.id, FromCall), Continuation(pB.id, FromCall);
    ghost var outbox2 := bridge.outbox;
    ReplyTo(bridge, hB, kB, errorB, resultB, localStack, captured, hA, kA);
    ReplyTo(bridge, hA, kA, errorA, resultA, localStack, captured, 0, kA);
    assert bridge.outbox == outbox2;
  }
}
