// src/filterInPlace.ts: keep the elements a predicate accepts, compacting them
// to the front of the array with a write index that trails the read index.
module FilterInPlace {

  /** The elements of `s` that `keep` accepts, in their original order. */
  function Filter<T>(s: seq<T>, keep: T -> bool): seq<T> {
    if s == [] then []
    else Filter(s[..|s| - 1], keep) + (if keep(s[|s| - 1]) then [s[|s| - 1]] else [])
  }

  /** How many elements of `s` `keep` accepts. */
  function Count<T>(s: seq<T>, keep: T -> bool): nat {
    if s == [] then 0
    else Count(s[..|s| - 1], keep) + (if keep(s[|s| - 1]) then 1 else 0)
  }

  /**
   * `filterInPlace(xs, keep)`: `n` is the array's new length; `calls` lists the
   * arguments `keep` was called with, in order. Nothing is written past the kept prefix.
   */
  method FilterInPlace<T>(xs: array<T>, keep: T -> bool) returns (n: nat, ghost calls: seq<T>)
    modifies xs
    ensures n <= xs.Length
    ensures xs[..n] == Filter(old(xs[..]), keep)
    ensures xs[n..] == old(xs[..])[n..]
    ensures calls == old(xs[..])
  {
    var w := 0;
    calls := [];
    for r := 0 to xs.Length
      invariant w <= r
      invariant xs[..w] == Filter(old(xs[..])[..r], keep)
      invariant forall k :: w <= k < xs.Length ==> xs[k] == old(xs[k])
      invariant calls == old(xs[..])[..r]
    {
      var item := xs[r];
      calls := calls + [item];
      assert old(xs[..])[..r + 1][..r] == old(xs[..])[..r];
      if keep(item) {
        xs[w] := item;
        w := w + 1;
      }
    }
    n := w;
    assert old(xs[..])[..xs.Length] == old(xs[..]);
  }

  /** The kept elements number exactly as many as `keep` accepts. */
  lemma {:induction false} FilterLength<T>(s: seq<T>, keep: T -> bool)
    ensures |Filter(s, keep)| == Count(s, keep)
  {
    if s != [] {
      FilterLength(s[..|s| - 1], keep);
    }
  }

  /** Every kept element is accepted and comes from the input. */
  lemma {:induction false} FilterSound<T>(s: seq<T>, keep: T -> bool)
    ensures forall x :: x in Filter(s, keep) ==> keep(x) && x in s
  {
    if s != [] {
      FilterSound(s[..|s| - 1], keep);
      assert forall x :: x in s[..|s| - 1] ==> x in s;
    }
  }

  /** Every accepted element of the input is kept (as often as it occurs). */
  lemma {:induction false} FilterComplete<T>(s: seq<T>, keep: T -> bool)
    ensures forall x :: x in s && keep(x) ==> multiset(Filter(s, keep))[x] == multiset(s)[x]
    ensures multiset(Filter(s, keep)) <= multiset(s)
  {
    if s != [] {
      var init := s[..|s| - 1];
      FilterComplete(init, keep);
      FilterSound(init, keep);
      assert s == init + [s[|s| - 1]];
      forall x | x in s && keep(x)
        ensures multiset(Filter(s, keep))[x] == multiset(s)[x]
      {
        if x !in init {
          assert multiset(init)[x] == 0;
          assert multiset(Filter(init, keep))[x] == 0;
        }
      }
    }
  }

  /** An always-true predicate keeps everything; an always-false one keeps nothing. */
  lemma {:induction false} FilterExtremes<T>(s: seq<T>, keep: T -> bool)
    ensures (forall x :: keep(x)) ==> Filter(s, keep) == s
    ensures (forall x :: !keep(x)) ==> Filter(s, keep) == []
  {
    if s != [] {
      FilterExtremes(s[..|s| - 1], keep);
      assert s == s[..|s| - 1] + [s[|s| - 1]];
    }
  }
}
