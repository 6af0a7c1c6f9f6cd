// src/ServiceProxy.ts: `makeProxy(x, worker)`, a proxy over `x` whose `get` trap
// turns string-valued properties into forwarding thunks and remembers them.
module Proxy {
  import opened JsValues
  import Bridge
  import Slots
  import Protocol

  /** A forwarding thunk `(...args) => worker.call(fnName, ...args)`; `id` is its identity. */
  datatype Thunk = Thunk(id: nat, fnName: string)

  /** What a property read yields: a thunk, or the target's own value passed through. */
  datatype Got = GotThunk(thunk: Thunk) | GotValue(value: Value)

  class ServiceProxy {
    /** The proxied object `x`: its own properties. */
    var target: map<Key, Value>
    /** `thunks`: the memo table, a prototype-less record. */
    var thunks: map<Key, Thunk>
    /** The identity the next thunk gets. */
    var nextThunk: nat

    /** Every cached thunk is a distinct closure created by an earlier read. */
    ghost predicate Valid()
      reads this
    {
      && (forall p :: p in thunks ==> thunks[p].id < nextThunk)
      && (forall p, p' :: p in thunks && p' in thunks && p != p' ==> thunks[p].id != thunks[p'].id)
    }

    /** `makeProxy(x, worker)`: nothing cached yet. */
    constructor (x: map<Key, Value>)
      ensures Valid() && target == x && thunks == map[]
    {
      target := x;
      thunks := map[];
      nextThunk := 0;
    }

    /**
     * The `get` trap. A cached thunk is returned as it is, whatever the target now
     * holds. Otherwise a string value gets a fresh thunk forwarding to the function
     * of that name, which is cached; any other value is returned uncached.
     */
    method Get(prop: Key) returns (r: Got)
      requires Valid()
      modifies this`thunks, this`nextThunk
      ensures Valid()
      ensures prop in old(thunks) ==> r == GotThunk(old(thunks)[prop]) && thunks == old(thunks)
      ensures prop !in old(thunks) && JsValues.Get(target, prop).Str? ==>
        && r == GotThunk(Thunk(old(nextThunk), JsValues.Get(target, prop).s))
        && thunks == old(thunks)[prop := r.thunk]
      ensures prop !in old(thunks) && !JsValues.Get(target, prop).Str? ==>
        r == GotValue(JsValues.Get(target, prop)) && thunks == old(thunks)
      ensures thunks.Keys <= old(thunks.Keys) + {prop}
    {
      if prop in thunks {
        return GotThunk(thunks[prop]);
      }
      var fnName := JsValues.Get(target, prop);
      if fnName.Str? {
        var thunk := Thunk(nextThunk, fnName.s);
        thunks := thunks[prop := thunk];
        nextThunk := nextThunk + 1;
        return GotThunk(thunk);
      }
      r := GotValue(fnName);
    }

    /** An assignment to the proxied object's property (a write past the proxy, which has no `set` trap). */
    method SetTarget(prop: Key, value: Value)
      modifies this`target
      ensures target == old(target)[prop := value]
    {
      target := target[prop := value];
    }

    /**
     * Two reads of the same property give the identical thunk once the first gives
     * one, even when the property is reassigned in between.
     */
    method ReadTwice(prop: Key, reassigned: Value) returns (first: Got, second: Got)
      requires Valid()
      modifies this
      ensures Valid()
      ensures first.GotThunk? ==> second == first
      ensures JsValues.Get(old(target), prop).Str? ==> first.GotThunk?
    {
      first := Get(prop);
      SetTarget(prop, reassigned);
      second := Get(prop);
    }
  }

  /** Calling a thunk: `worker.call(thunk.fnName, ...args)`, with the same outcome. */
  method CallThunk(worker: Bridge.ServiceBridge, thunk: Thunk, args: seq<Value>, errorStack: string,
                   captured: string, sendFailure: Option<Thrown>) returns (p: Bridge.Posted)
    requires worker.Valid()
    modifies worker, worker.slots, worker.slots.data, worker.slots.gen
    ensures worker.Valid()
    ensures worker.settled == old(worker.settled)
    ensures old(worker.slots.nextFreeSlot) < worker.slots.capacity && sendFailure.None? ==>
      var i := old(worker.slots.freeSlots[worker.slots.nextFreeSlot]);
      && p == Bridge.Pending(old(worker.nextId))
      && worker.outbox == old(worker.outbox)
           + [Bridge.Message(Slots.Encode(worker.slots.gen[i], i), Protocol.Command.Call, [Str(thunk.fnName)] + args)]
  {
    p := worker.Call(thunk.fnName, args, errorStack, captured, sendFailure);
  }
}
