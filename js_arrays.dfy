/**
 * `Array.prototype.filter` with a pure callback: the elements that pass, in
 * their original order.
 */
module JsArrays {
  /** `xs.filter(keep)`. */
  function Filter<T(==,!new)>(keep: T -> bool, xs: seq<T>): (kept: seq<T>)
    ensures |kept| <= |xs|
    ensures forall x :: x in kept <==> x in xs && keep(x)
    decreases |xs|
  {
    if xs == [] then []
    else
      var last := xs[|xs| - 1];
      var before := Filter(keep, xs[..|xs| - 1]);
      assert forall x :: x in xs <==> x in xs[..|xs| - 1] || x == last by {
        assert xs == xs[..|xs| - 1] + [last];
      }
      before + (if keep(last) then [last] else [])
  }

  /** The positions of `xs` whose elements pass `keep`, in increasing order. */
  function KeptIndices<T>(keep: T -> bool, xs: seq<T>): (idx: seq<nat>)
    ensures forall i :: 0 <= i < |idx| ==> idx[i] < |xs|
    decreases |xs|
  {
    if xs == [] then []
    else
      var n := |xs| - 1;
      KeptIndices(keep, xs[..n]) + (if keep(xs[n]) then [n] else [])
  }

  /** The kept positions are strictly increasing. */
  lemma {:induction false} KeptIndicesIncreasing<T>(keep: T -> bool, xs: seq<T>)
    ensures forall i, j :: 0 <= i < j < |KeptIndices(keep, xs)| ==>
      KeptIndices(keep, xs)[i] < KeptIndices(keep, xs)[j]
    decreases |xs|
  {
    if xs != [] {
      var n := |xs| - 1;
      KeptIndicesIncreasing(keep, xs[..n]);
      var idx := KeptIndices(keep, xs[..n]);
      if keep(xs[n]) {
        var grown := idx + [n];
        assert KeptIndices(keep, xs) == grown;
        forall i, j | 0 <= i < j < |grown|
          ensures grown[i] < grown[j]
        {
          assert grown[i] == idx[i];
          if j == |idx| {
            assert grown[j] == n;
          } else {
            assert grown[j] == idx[j];
          }
        }
      } else {
        assert KeptIndices(keep, xs) == idx;
      }
    }
  }

  /** A position is kept exactly when its element passes `keep`. */
  lemma {:induction false} KeptIndicesExact<T>(keep: T -> bool, xs: seq<T>)
    ensures forall j :: 0 <= j < |xs| ==> (j in KeptIndices(keep, xs) <==> keep(xs[j]))
    decreases |xs|
  {
    if xs != [] {
      var n := |xs| - 1;
      var prefix := xs[..n];
      KeptIndicesExact(keep, prefix);
      var idx := KeptIndices(keep, prefix);
      var tail: seq<nat> := if keep(xs[n]) then [n] else [];
      assert KeptIndices(keep, xs) == idx + tail;
      assert n !in idx;
      forall j | 0 <= j < |xs|
        ensures j in idx + tail <==> keep(xs[j])
      {
        if j < n {
          assert prefix[j] == xs[j];
        }
      }
    }
  }

  /**
   * The filtered list is the subsequence of `xs` at the kept positions: same
   * order, nothing repeated or invented, and every passing element present.
   */
  lemma FilterFollowsIndices<T(!new)>(keep: T -> bool, xs: seq<T>)
    ensures |Filter(keep, xs)| == |KeptIndices(keep, xs)|
    ensures forall i :: 0 <= i < |KeptIndices(keep, xs)| ==>
      Filter(keep, xs)[i] == xs[KeptIndices(keep, xs)[i]]
  {
    FilterLength(keep, xs);
    forall i | 0 <= i < |KeptIndices(keep, xs)|
      ensures Filter(keep, xs)[i] == xs[KeptIndices(keep, xs)[i]]
    {
      FilterAt(keep, xs, i);
    }
  }

  /** As many elements are kept as positions. */
  lemma {:induction false} FilterLength<T(!new)>(keep: T -> bool, xs: seq<T>)
    ensures |Filter(keep, xs)| == |KeptIndices(keep, xs)|
    decreases |xs|
  {
    if xs != [] {
      FilterLength(keep, xs[..|xs| - 1]);
    }
  }

  /** Kept element `i` is the element at kept position `i`. */
  lemma {:induction false} FilterAt<T(!new)>(keep: T -> bool, xs: seq<T>, i: nat)
    requires i < |KeptIndices(keep, xs)|
    ensures |Filter(keep, xs)| == |KeptIndices(keep, xs)|
    ensures Filter(keep, xs)[i] == xs[KeptIndices(keep, xs)[i]]
    decreases |xs|
  {
    var n := |xs| - 1;
    var prefix := xs[..n];
    var kept, idx := Filter(keep, prefix), KeptIndices(keep, prefix);
    FilterLength(keep, prefix);
    if i < |idx| {
      FilterAt(keep, prefix, i);
      assert prefix[idx[i]] == xs[idx[i]];
    }
    if keep(xs[n]) {
      assert Filter(keep, xs) == kept + [xs[n]];
      assert KeptIndices(keep, xs) == idx + [n];
    } else {
      assert Filter(keep, xs) == kept;
      assert KeptIndices(keep, xs) == idx;
    }
  }

  /** Filtering distributes over concatenation. */
  lemma {:induction false} FilterAppend<T(!new)>(keep: T -> bool, a: seq<T>, b: seq<T>)
    ensures Filter(keep, a + b) == Filter(keep, a) + Filter(keep, b)
    decreases |b|
  {
    if b != [] {
      var n := |b| - 1;
      assert (a + b)[..|a + b| - 1] == a + b[..n];
      assert (a + b)[|a + b| - 1] == b[n];
      FilterAppend(keep, a, b[..n]);
    } else {
      assert a + b == a;
    }
  }

  /** Filtering a filtered list changes nothing. */
  lemma {:induction false} FilterIdempotent<T(!new)>(keep: T -> bool, xs: seq<T>)
    ensures Filter(keep, Filter(keep, xs)) == Filter(keep, xs)
    decreases |xs|
  {
    if xs != [] {
      var n := |xs| - 1;
      var before := Filter(keep, xs[..n]);
      FilterIdempotent(keep, xs[..n]);
      if keep(xs[n]) {
        FilterAppend(keep, before, [xs[n]]);
        assert [xs[n]] == [] + [xs[n]];
      } else {
        assert Filter(keep, xs) == before;
      }
    }
  }
}
