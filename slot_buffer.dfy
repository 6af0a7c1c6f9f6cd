// src/SlotBuffer.ts: a fixed-capacity table of pending values, addressed by
// handles that pack a per-slot generation above a 32-bit slot index.
module Slots {
  import opened JsValues

  /** `1n << 32n`: the index occupies the low 32 bits of a handle. */
  const HandleShift: nat := 0x1_0000_0000

  /** The constructor's default `capacity`. */
  const DefaultCapacity: nat := 1024

  const CapacityExceededMessage: string := "Capacity exceeded: No free worker slots."

  /** `(BigInt(generation) << 32n) | BigInt(index)` for an index below 2^32. */
  function Encode(generation: nat, index: nat): (h: nat)
    requires index < HandleShift
    ensures Decode(h) == (generation, index)
  {
    generation * HandleShift + index
  }

  /**
   * `[Number(h >> 32n), Number(BigInt.asUintN(32, h))]`: the shift floors and the
   * truncation is modulo 2^32, which is what Dafny's `/` and `%` do for every handle.
   */
  function Decode(h: int): (r: (int, nat))
    ensures r.1 < HandleShift
    ensures h == r.0 * HandleShift + r.1
  {
    (h / HandleShift, h % HandleShift)
  }

  /** Handles for different (generation, index) pairs are different. */
  lemma EncodeInjective(g: nat, i: nat, g': nat, i': nat)
    requires i < HandleShift && i' < HandleShift
    requires Encode(g, i) == Encode(g', i')
    ensures g == g' && i == i'
  {
    assert Decode(Encode(g, i)) == Decode(Encode(g', i'));
  }

  /** The indices of the slots that hold a value. */
  ghost function LiveOf<T>(data: seq<Option<T>>): set<nat>
  {
    set j: nat | j < |data| && data[j].Some?
  }

  /**
   * The free-list discipline over the slots' contents `data`, the index stack
   * `free` and the next-free counter `next`: the entries from `next` on name empty
   * slots, each at most once, and every empty slot is named there, so free region
   * and live slots partition the indices; the live slots number exactly `next`.
   */
  ghost predicate FreeInv<T>(data: seq<Option<T>>, free: seq<nat>, next: nat)
  {
    && |free| == |data| && next <= |free|
    && (forall k :: next <= k < |free| ==> free[k] < |data| && data[free[k]].None?)
    && (forall k, k' :: next <= k < k' < |free| ==> free[k] != free[k'])
    && (forall j :: 0 <= j < |data| && data[j].None? ==> j in free[next..])
    && |LiveOf(data)| == next
  }

  /** Every slot holds a value. */
  ghost predicate AllTaken<T>(data: seq<Option<T>>) {
    forall j :: 0 <= j < |data| ==> data[j].Some?
  }

  /** The free-list is empty exactly when every slot is taken. */
  lemma FreeListEmptyIffAllTaken<T>(data: seq<Option<T>>, free: seq<nat>, next: nat)
    requires FreeInv(data, free, next)
    ensures next == |free| <==> AllTaken(data)
  {
    if next < |free| {
      assert data[free[next]].None?;
    } else {
      assert free[next..] == [];
    }
  }

  /** Taking the top of the free-list and filling that slot keeps the discipline. */
  lemma AcquireKeepsFreeInv<T>(data: seq<Option<T>>, free: seq<nat>, next: nat, value: T)
    requires FreeInv(data, free, next) && next < |free|
    ensures FreeInv(data[free[next] := Some(value)], free, next + 1)
  {
    var i := free[next];
    assert i !in LiveOf(data);
    assert LiveOf(data[i := Some(value)]) == LiveOf(data) + {i};
    PopTaken(data, free, next, value);
  }

  /** Below the taken top `free[next]`, the free-list still names distinct empty slots, all of them. */
  lemma PopTaken<T>(data: seq<Option<T>>, free: seq<nat>, next: nat, value: T)
    requires FreeInv(data, free, next) && next < |free|
    ensures var data' := data[free[next] := Some(value)];
      && (forall k :: next + 1 <= k < |free| ==> free[k] < |data'| && data'[free[k]].None?)
      && (forall j :: 0 <= j < |data'| && data'[j].None? ==> j in free[next + 1..])
  {
    var i := free[next];
    var data' := data[i := Some(value)];
    assert free[next..] == [i] + free[next + 1..];
    forall j | 0 <= j < |data'| && data'[j].None? ensures j in free[next + 1..] {
      assert j != i && data[j].None?;
    }
  }

  /** Emptying a live slot and pushing its index on the free-list keeps the discipline. */
  lemma ReleaseKeepsFreeInv<T>(data: seq<Option<T>>, free: seq<nat>, next: nat, i: nat)
    requires FreeInv(data, free, next) && i < |data| && data[i].Some?
    ensures next > 0
    ensures FreeInv(data[i := None], free[next - 1 := i], next - 1)
    ensures free[next - 1 := i][next - 1..] == [i] + free[next..]
  {
    assert i in LiveOf(data);
    assert LiveOf(data[i := None]) == LiveOf(data) - {i};
    PushFreed(data, free, next, i);
  }

  /** The free-list with a freed live index `i` pushed on top still names distinct empty slots, all of them. */
  lemma PushFreed<T>(data: seq<Option<T>>, free: seq<nat>, next: nat, i: nat)
    requires FreeInv(data, free, next) && i < |data| && data[i].Some? && next > 0
    ensures var data', free' := data[i := None], free[next - 1 := i];
      && free'[next - 1..] == [i] + free[next..]
      && (forall k :: next - 1 <= k < |free'| ==> free'[k] < |data'| && data'[free'[k]].None?)
      && (forall k, k' :: next - 1 <= k < k' < |free'| ==> free'[k] != free'[k'])
      && (forall j :: 0 <= j < |data'| && data'[j].None? ==> j in free'[next - 1..])
  {
    assert forall k :: next <= k < |free| ==> free[k] != i;
    var data' := data[i := None];
    var free' := free[next - 1 := i];
    assert free'[next - 1..] == [i] + free[next..] by {
      assert free'[next..] == free[next..];
    }
    forall j | 0 <= j < |data'| && data'[j].None? ensures j in free'[next - 1..] {
      if j != i {
        assert data[j].None?;
        assert j in free[next..];
      }
    }
  }

  class SlotBuffer<T> {
    /** `#data`: None is a hole (`undefined`), i.e. a free slot. */
    const data: array<Option<T>>
    /** `#gen`: generation of each slot (unbounded here). */
    const gen: array<nat>
    /** `#freeSlots`: entries from `nextFreeSlot` on form the free-list, top first. */
    const freeSlots: array<nat>
    var nextFreeSlot: nat
    const capacity: nat

    ghost predicate Valid()
      reads this, data, gen, freeSlots
    {
      && data.Length == capacity && gen.Length == capacity && freeSlots.Length == capacity
      && gen != freeSlots
      && capacity <= HandleShift
      && FreeInv(data[..], freeSlots[..], nextFreeSlot)
    }

    /** The free-list, the slot the next `Acquire` takes first. */
    ghost function FreeList(): seq<nat>
      reads this, freeSlots
      requires nextFreeSlot <= freeSlots.Length
    {
      freeSlots[nextFreeSlot..]
    }

    /** Every slot holds a value. */
    ghost predicate Full()
      reads this, data
    {
      AllTaken(data[..])
    }

    /** `release` accepts `h`: its index is in range and its generation is current. */
    ghost predicate Matches(h: int)
      reads this, gen
    {
      var (g, i) := Decode(h);
      i < capacity && i < gen.Length && gen[i] == g
    }

    /**
     * `h` is not a handle already released whose slot is still free. The source does
     * not advance the generation on release, so releasing such a handle again passes
     * the generation check and pushes the index onto the free-list a second time.
     */
    ghost predicate NotReleasedTwice(h: int)
      reads this, gen, data
    {
      Matches(h) && Decode(h).1 < data.Length ==> data[Decode(h).1].Some?
    }

    constructor (capacity: nat := DefaultCapacity)
      requires capacity <= HandleShift
      ensures Valid() && fresh(data) && fresh(gen) && fresh(freeSlots)
      ensures this.capacity == capacity && nextFreeSlot == 0
      ensures forall j :: 0 <= j < capacity ==> data[j].None? && gen[j] == 0 && freeSlots[j] == j
    {
      var free := new nat[capacity];
      for i := 0 to capacity
        invariant forall j :: 0 <= j < i ==> free[j] == j
      {
        free[i] := i;
      }
      this.capacity := capacity;
      data := new Option<T>[capacity](_ => None);
      gen := new nat[capacity](_ => 0);
      freeSlots := free;
      nextFreeSlot := 0;
      new;
      forall j | 0 <= j < capacity ensures j in freeSlots[..][0..] {
        assert freeSlots[..][0..][j] == j;
      }
      assert LiveOf(data[..]) == {};
    }

    /**
     * `acquire(value)`: None is the capacity error, thrown with nothing changed.
     * Otherwise the top of the free-list is taken, its generation advanced and the
     * value stored there; the handle names that slot at the new generation.
     */
    method Acquire(value: T) returns (h: Option<nat>)
      requires Valid()
      modifies this`nextFreeSlot, data, gen
      ensures Valid()
      ensures h.None? <==> old(nextFreeSlot) == capacity
      ensures h.None? <==> old(Full())
      ensures h.None? ==> nextFreeSlot == old(nextFreeSlot) && data[..] == old(data[..]) && gen[..] == old(gen[..])
      ensures h.Some? ==>
        var i := old(freeSlots[nextFreeSlot]);
        && i < capacity
        && old(data[i]).None?
        && gen[i] == old(gen[i]) + 1
        && h.value == Encode(gen[i], i)
        && data[..] == old(data[..])[i := Some(value)]
        && gen[..] == old(gen[..])[i := old(gen[i]) + 1]
        && nextFreeSlot == old(nextFreeSlot) + 1
        && FreeList() == old(FreeList())[1..]
    {
      FreeListEmptyIffAllTaken(data[..], freeSlots[..], nextFreeSlot);
      if nextFreeSlot == capacity {
        return None;
      }
      var i := freeSlots[nextFreeSlot];
      var g := gen[i];
      ghost var d0, f0, n0 := data[..], freeSlots[..], nextFreeSlot;
      AcquireKeepsFreeInv(d0, f0, n0, value);
      assert d0[i].None?;
      nextFreeSlot := nextFreeSlot + 1;
      data[i] := Some(value);
      gen[i] := g + 1;
      h := Some(Encode(gen[i], i));
      assert data[..] == old(data[..])[i := Some(value)];
      assert gen[..] == old(gen[..])[i := g + 1];
      assert FreeList() == old(FreeList())[1..];
      assert data[..] == d0[f0[n0] := Some(value)] && freeSlots[..] == f0;
    }

    /**
     * `release(h)`: a handle whose index is out of range or whose generation is not
     * the slot's current one is refused with nothing changed. A matching handle
     * gives back the stored value, empties the slot and pushes its index onto the
     * free-list; the generation is left as it is.
     */
    method Release(h: int) returns (r: Option<T>)
      requires Valid()
      requires NotReleasedTwice(h)
      modifies this`nextFreeSlot, data, freeSlots
      ensures Valid()
      ensures !old(Matches(h)) ==>
        && r.None?
        && nextFreeSlot == old(nextFreeSlot) && data[..] == old(data[..]) && freeSlots[..] == old(freeSlots[..])
      ensures old(Matches(h)) ==>
        var i := Decode(h).1;
        && r.Some? && r == old(data[i])
        && data[..] == old(data[..])[i := None]
        && nextFreeSlot == old(nextFreeSlot) - 1
        && FreeList() == [i] + old(FreeList())
    {
      var (g, i) := Decode(h);
      if i >= capacity || gen[i] != g {
        return None;
      }
      ReleaseKeepsFreeInv(data[..], freeSlots[..], nextFreeSlot, i);
      r := data[i];
      data[i] := None;
      nextFreeSlot := nextFreeSlot - 1;
      freeSlots[nextFreeSlot] := i;
    }
  }

  /** A matching release, seen from outside: the index is on top of the free-list. */
  method ReleaseLive<T>(b: SlotBuffer<T>, g: nat, i: nat) returns (released: Option<T>)
    requires b.Valid() && i < b.capacity && b.gen[i] == g && b.data[i].Some?
    modifies b, b.data, b.freeSlots
    ensures b.Valid()
    ensures released == old(b.data[i]) && b.data[i].None?
    ensures b.nextFreeSlot < b.capacity && b.freeSlots[b.nextFreeSlot] == i && b.gen[i] == g
  {
    released := b.Release(Encode(g, i));
    assert b.FreeList()[0] == i;
  }

  /**
   * An acquire as a caller keeping its own bookkeeping sees it: with a free slot,
   * the top of the free-list `i` gets `value` at the next generation and every
   * other slot and generation stays; with none, nothing changes.
   */
  method AcquireFree<T>(b: SlotBuffer<T>, value: T) returns (h: Option<nat>)
    requires b.Valid()
    modifies b, b.data, b.gen
    ensures b.Valid()
    ensures h.None? <==> old(b.nextFreeSlot) == b.capacity
    ensures h.None? ==>
      b.nextFreeSlot == old(b.nextFreeSlot) && b.data[..] == old(b.data[..]) && b.gen[..] == old(b.gen[..])
    ensures h.Some? ==>
      var i := old(b.freeSlots[b.nextFreeSlot]);
      && i < b.capacity
      && old(b.data[i]).None?
      && b.data[..] == old(b.data[..])[i := Some(value)]
      && b.gen[..] == old(b.gen[..])[i := old(b.gen[i]) + 1]
      && h.value == Encode(b.gen[i], i)
      && b.nextFreeSlot == old(b.nextFreeSlot) + 1
  {
    h := b.Acquire(value);
  }

  /** An acquire when index `i`, at generation `g`, is on top of the free-list. */
  method AcquireTop<T>(b: SlotBuffer<T>, g: nat, i: nat, value: T) returns (h: Option<nat>)
    requires b.Valid() && b.nextFreeSlot < b.capacity && b.freeSlots[b.nextFreeSlot] == i && b.gen[i] == g
    modifies b, b.data, b.gen
    ensures b.Valid()
    ensures h == Some(Encode(g + 1, i)) && i < b.capacity && b.data[i] == Some(value) && b.gen[i] == g + 1
  {
    h := b.Acquire(value);
  }

  /** A release with a handle whose index is out of range or whose generation is stale. */
  method ReleaseStale<T>(b: SlotBuffer<T>, g: nat, i: nat) returns (r: Option<T>)
    requires b.Valid() && i < HandleShift && (i >= b.capacity || b.gen[i] != g)
    modifies b, b.data, b.freeSlots
    ensures b.Valid()
    ensures r.None? && b.data[..] == old(b.data[..]) && b.FreeList() == old(b.FreeList())
  {
    r := b.Release(Encode(g, i));
  }

  /**
   * The free-list is LIFO: the acquire right after a matching release reuses the
   * released index with the generation one higher, and from then on the old
   * handle is refused with nothing changed.
   */
  method ReleaseThenAcquire<T>(b: SlotBuffer<T>, g: nat, i: nat, value: T)
    returns (released: Option<T>, reused: Option<nat>, again: Option<T>)
    requires b.Valid() && i < b.capacity && b.gen[i] == g && b.data[i].Some?
    modifies b, b.data, b.gen, b.freeSlots
    ensures b.Valid()
    ensures released == old(b.data[i])
    ensures reused == Some(Encode(g + 1, i))
    ensures again.None?
    ensures b.data[i] == Some(value)
  {
    released := ReleaseLive(b, g, i);
    reused := AcquireTop(b, g, i, value);
    again := ReleaseStale(b, g, i);
  }

  /** Two acquires with two free slots return handles for two different slots. */
  method AcquireTwice<T>(b: SlotBuffer<T>, first: T, second: T) returns (h1: Option<nat>, h2: Option<nat>)
    requires b.Valid() && b.nextFreeSlot + 2 <= b.capacity
    modifies b, b.data, b.gen
    ensures b.Valid()
    ensures h1.Some? && h2.Some? && Decode(h1.value).1 != Decode(h2.value).1
    ensures Decode(h1.value).1 < b.capacity && Decode(h2.value).1 < b.capacity
    ensures b.data[Decode(h1.value).1] == Some(first) && b.data[Decode(h2.value).1] == Some(second)
  {
    ghost var i1 := b.freeSlots[b.nextFreeSlot];
    ghost var i2 := b.freeSlots[b.nextFreeSlot + 1];
    assert i1 != i2;
    h1 := AcquireFree(b, first);
    assert b.freeSlots[b.nextFreeSlot] == i2;
    ghost var d1 := b.data[..];
    assert d1[i1] == Some(first);
    h2 := AcquireFree(b, second);
    assert b.data[..] == d1[i2 := Some(second)];
  }
}
