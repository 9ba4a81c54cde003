/** Reordering a sequence by a finite series of exchanges: the model of an
    in-place shuffle whose random choices are supplied from outside. */
module Permutations {

  /** One exchange of the elements at two positions. */
  type Swap = (nat, nat)

  /** Every exchange addresses positions of a sequence of length `n`. */
  predicate SwapsWithin(swaps: seq<Swap>, n: nat)
  {
    forall k :: 0 <= k < |swaps| ==> swaps[k].0 < n && swaps[k].1 < n
  }

  /** No value occurs at two positions. */
  predicate Distinct<T(==)>(xs: seq<T>)
  {
    forall i, j :: 0 <= i < j < |xs| ==> xs[i] != xs[j]
  }

  /** Exchanges the elements at positions `i` and `j`. */
  function Exchange<T>(xs: seq<T>, i: nat, j: nat): (ys: seq<T>)
    requires i < |xs| && j < |xs|
    ensures |ys| == |xs|
    ensures ys[i] == xs[j] && ys[j] == xs[i]
    ensures forall k :: 0 <= k < |xs| && k != i && k != j ==> ys[k] == xs[k]
    ensures multiset(ys) == multiset(xs)
  {
    xs[i := xs[j]][j := xs[i]]
  }

  /** Applies the exchanges in order. */
  function Shuffle<T>(xs: seq<T>, swaps: seq<Swap>): (ys: seq<T>)
    requires SwapsWithin(swaps, |xs|)
    ensures |ys| == |xs|
    ensures multiset(ys) == multiset(xs)
    ensures forall k :: 0 <= k < |ys| ==> ys[k] in xs
    decreases |swaps|
  {
    if |swaps| == 0 then xs
    else
      var ys := Shuffle(Exchange(xs, swaps[0].0, swaps[0].1), swaps[1..]);
      assert forall k :: 0 <= k < |ys| ==> ys[k] in multiset(xs);
      ys
  }

  /** The positions 0, 1, ..., n - 1, in order. */
  function Positions(n: nat): (r: seq<nat>)
    ensures |r| == n
    ensures forall k :: 0 <= k < n ==> r[k] == k
  {
    seq(n, k => k)
  }

  /** The positions 0 .. n - 1 reordered by `swaps`: every position exactly once. */
  function ShuffledPositions(n: nat, swaps: seq<Swap>): (ys: seq<nat>)
    requires SwapsWithin(swaps, n)
    ensures |ys| == n
    ensures multiset(ys) == multiset(Positions(n))
    ensures Distinct(ys)
    ensures forall i :: 0 <= i < n ==> i in ys
    ensures forall k :: 0 <= k < n ==> ys[k] < n
  {
    var xs := Positions(n);
    var ys := Shuffle(xs, swaps);
    SameMultisetKeepsDistinct(ys, xs);
    forall i | 0 <= i < n
      ensures i in ys
    {
      assert xs[i] in multiset(xs);
    }
    assert forall k :: 0 <= k < n ==> ys[k] in multiset(xs);
    ys
  }

  /** In a sequence without repetitions every value is counted at most once. */
  lemma {:induction false} DistinctCountsAtMostOne<T>(xs: seq<T>, x: T)
    requires Distinct(xs)
    ensures multiset(xs)[x] <= 1
    decreases |xs|
  {
    if |xs| > 0 {
      assert xs == [xs[0]] + xs[1..];
      assert Distinct(xs[1..]) by {
        forall i, j | 0 <= i < j < |xs[1..]|
          ensures xs[1..][i] != xs[1..][j]
        {
          assert xs[1..][i] == xs[i + 1] && xs[1..][j] == xs[j + 1];
        }
      }
      DistinctCountsAtMostOne(xs[1..], x);
      if x == xs[0] {
        forall k | 0 <= k < |xs[1..]|
          ensures xs[1..][k] != x
        {
          assert xs[1..][k] == xs[k + 1];
        }
        assert x !in multiset(xs[1..]);
      }
    }
  }

  /** A value found at two positions is counted at least twice. */
  lemma RepeatCountsTwice<T>(xs: seq<T>, i: nat, j: nat)
    requires i < j < |xs| && xs[i] == xs[j]
    ensures multiset(xs)[xs[i]] >= 2
  {
    var front, back := xs[..j], xs[j..];
    assert xs == front + back;
    assert front[i] == xs[i];
    assert back[0] == xs[j];
    assert xs[i] in multiset(front) && xs[i] in multiset(back);
  }

  /** Reordering a sequence without repetitions cannot create one. */
  lemma SameMultisetKeepsDistinct<T>(xs: seq<T>, ys: seq<T>)
    requires multiset(xs) == multiset(ys)
    requires Distinct(ys)
    ensures Distinct(xs)
  {
    forall i, j | 0 <= i < j < |xs|
      ensures xs[i] != xs[j]
    {
      if xs[i] == xs[j] {
        RepeatCountsTwice(xs, i, j);
        DistinctCountsAtMostOne(ys, xs[i]);
        assert false;
      }
    }
  }
}
