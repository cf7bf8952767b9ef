/** Order-preserving filtering of sequences (`Array.prototype.filter` and
    `String.prototype.replace` with a character-class regular expression). */
module Seqs {

  /** The elements of `xs` that satisfy `p`, in their original order. */
  function Filter<T>(xs: seq<T>, p: T -> bool): (r: seq<T>)
    ensures |r| <= |xs|
  {
    if |xs| == 0 then []
    else if p(xs[0]) then [xs[0]] + Filter(xs[1..], p)
    else Filter(xs[1..], p)
  }

  /** The result holds exactly the elements of `xs` that satisfy `p`. */
  lemma {:induction false} FilterSpec<T(!new)>(xs: seq<T>, p: T -> bool)
    ensures forall i :: 0 <= i < |Filter(xs, p)| ==> p(Filter(xs, p)[i])
    ensures forall x :: x in Filter(xs, p) <==> x in xs && p(x)
  {
    if |xs| > 0 {
      FilterSpec(xs[1..], p);
      assert xs == [xs[0]] + xs[1..];
    }
  }

  /** Filtering distributes over concatenation, so relative order is kept. */
  lemma {:induction false} FilterConcat<T>(xs: seq<T>, ys: seq<T>, p: T -> bool)
    ensures Filter(xs + ys, p) == Filter(xs, p) + Filter(ys, p)
  {
    if |xs| == 0 {
      assert xs + ys == ys;
    } else {
      assert (xs + ys)[1..] == xs[1..] + ys;
      FilterConcat(xs[1..], ys, p);
    }
  }

  /** A filter that keeps every element is the identity. */
  lemma {:induction false} FilterKeepsAll<T>(xs: seq<T>, p: T -> bool)
    requires forall i :: 0 <= i < |xs| ==> p(xs[i])
    ensures Filter(xs, p) == xs
  {
    if |xs| > 0 {
      FilterKeepsAll(xs[1..], p);
    }
  }

  /** Filtering twice by the same predicate is filtering once. */
  lemma FilterIdempotent<T(!new)>(xs: seq<T>, p: T -> bool)
    ensures Filter(Filter(xs, p), p) == Filter(xs, p)
  {
    FilterSpec(xs, p);
    FilterKeepsAll(Filter(xs, p), p);
  }

  /** Every kept element occurs as often in the result as in the input;
      every dropped one not at all. */
  lemma {:induction false} FilterCounts<T>(xs: seq<T>, p: T -> bool, x: T)
    ensures multiset(Filter(xs, p))[x] == if p(x) then multiset(xs)[x] else 0
  {
    if |xs| > 0 {
      FilterCounts(xs[1..], p, x);
      assert xs == [xs[0]] + xs[1..];
    }
  }

  /** A filter that keeps no element yields the empty sequence. */
  lemma {:induction false} FilterNoneKept<T>(xs: seq<T>, p: T -> bool)
    requires forall i :: 0 <= i < |xs| ==> !p(xs[i])
    ensures Filter(xs, p) == []
  {
    if |xs| > 0 {
      FilterNoneKept(xs[1..], p);
    }
  }

  /** `idx` picks the elements of `sub` out of `xs` at strictly increasing
      positions. */
  predicate Picks<T(==)>(idx: seq<nat>, sub: seq<T>, xs: seq<T>) {
    && |idx| == |sub|
    && (forall k :: 0 <= k < |idx| ==> idx[k] < |xs| && sub[k] == xs[idx[k]])
    && (forall k, l :: 0 <= k < l < |idx| ==> idx[k] < idx[l])
  }

  /** `sub` is `xs` with some elements left out and the rest in their order. */
  ghost predicate IsSubsequence<T>(sub: seq<T>, xs: seq<T>) {
    exists idx :: Picks(idx, sub, xs)
  }

  /** Every position moved one place to the right. */
  function Shifted(idx: seq<nat>): (r: seq<nat>)
    ensures |r| == |idx|
    ensures forall k :: 0 <= k < |idx| ==> r[k] == idx[k] + 1
  {
    seq(|idx|, k requires 0 <= k < |idx| => idx[k] + 1)
  }

  /** Picks from the tail of `xs` are picks from `xs` one place on. */
  lemma PicksFromTail<T>(idx: seq<nat>, sub: seq<T>, xs: seq<T>)
    requires |xs| > 0 && Picks(idx, sub, xs[1..])
    ensures Picks(Shifted(idx), sub, xs)
  {
    var moved := Shifted(idx);
    forall k | 0 <= k < |moved|
      ensures moved[k] < |xs| && sub[k] == xs[moved[k]]
    {
      assert xs[1..][idx[k]] == xs[idx[k] + 1];
    }
  }

  /** The head of `xs` can be picked in front of picks that avoid it. */
  lemma PicksWithHead<T>(idx: seq<nat>, sub: seq<T>, xs: seq<T>)
    requires |xs| > 0 && Picks(idx, sub, xs)
    requires forall k :: 0 <= k < |idx| ==> idx[k] > 0
    ensures Picks([0] + idx, [xs[0]] + sub, xs)
  {
    var all := [0] + idx;
    forall k | 0 < k < |all|
      ensures all[k] == idx[k - 1] && ([xs[0]] + sub)[k] == sub[k - 1]
    {
    }
  }

  /** The kept elements appear in the result in the order they had in the
      input. */
  lemma {:induction false} FilterIsSubsequence<T>(xs: seq<T>, p: T -> bool)
    ensures IsSubsequence(Filter(xs, p), xs)
  {
    if |xs| == 0 {
      assert Picks([], Filter(xs, p), xs);
    } else {
      FilterIsSubsequence(xs[1..], p);
      var rest := Filter(xs[1..], p);
      var idx :| Picks(idx, rest, xs[1..]);
      PicksFromTail(idx, rest, xs);
      if p(xs[0]) {
        PicksWithHead(Shifted(idx), rest, xs);
        assert Picks([0] + Shifted(idx), Filter(xs, p), xs);
      } else {
        assert Picks(Shifted(idx), Filter(xs, p), xs);
      }
    }
  }
}
