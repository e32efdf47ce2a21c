/** Sums and means of sequences of reals, and why their order does not matter. */
module RealSums {

  /** The elements added from the first to the last. */
  function Sum(xs: seq<real>): real
  {
    if xs == [] then 0.0 else Sum(xs[..|xs| - 1]) + xs[|xs| - 1]
  }

  /** The arithmetic mean of a non-empty sequence. */
  function Mean(xs: seq<real>): real
    requires |xs| > 0
  {
    Sum(xs) / |xs| as real
  }

  /** The values `p[o[0]], p[o[1]], ...`: `p` visited in the order `o`. */
  function Gather(p: seq<real>, o: seq<nat>): (g: seq<real>)
    requires forall k :: 0 <= k < |o| ==> o[k] < |p|
    ensures |g| == |o| && forall k :: 0 <= k < |o| ==> g[k] == p[o[k]]
  {
    seq(|o|, k requires 0 <= k < |o| => p[o[k]])
  }

  /** The indices 0, 1, ..., n - 1 in ascending order. */
  function Ranks(n: nat): (r: seq<nat>)
    ensures |r| == n && forall k :: 0 <= k < n ==> r[k] == k
  {
    seq(n, k requires 0 <= k < n => k)
  }

  /** Adding one element at the end adds its value. */
  lemma SumSnoc(xs: seq<real>, x: real)
    ensures Sum(xs + [x]) == Sum(xs) + x
  {
    assert (xs + [x])[..|xs|] == xs;
  }

  /** Removing the element at position k takes away exactly its value. */
  lemma {:induction false} SumRemove(xs: seq<real>, k: nat)
    requires k < |xs|
    ensures Sum(xs) == Sum(xs[..k] + xs[k + 1..]) + xs[k]
  {
    var last := |xs| - 1;
    if k == last {
      assert xs[..k] + xs[k + 1..] == xs[..last];
    } else {
      var init := xs[..last];
      SumRemove(init, k);
      assert xs[..k] + xs[k + 1..] == (init[..k] + init[k + 1..]) + [xs[last]];
      SumSnoc(init[..k] + init[k + 1..], xs[last]);
    }
  }

  /** Removing the element at position k removes one occurrence of it. */
  lemma MultisetRemove<T>(s: seq<T>, k: nat)
    requires k < |s|
    ensures multiset(s[..k] + s[k + 1..]) == multiset(s) - multiset{s[k]}
  {
    assert s == s[..k] + [s[k]] + s[k + 1..];
  }

  /** Two orderings of the same indices address only valid positions. */
  lemma PermutationInRange(n: nat, o1: seq<nat>, o2: seq<nat>)
    requires forall k :: 0 <= k < |o1| ==> o1[k] < n
    requires multiset(o1) == multiset(o2)
    ensures forall k :: 0 <= k < |o2| ==> o2[k] < n
  {
    forall k | 0 <= k < |o2| ensures o2[k] < n {
      assert o2[k] in multiset(o1);
    }
  }

  /** Visiting one more index adds its value. */
  lemma SumGatherSnoc(p: seq<real>, o: seq<nat>)
    requires |o| > 0 && forall k :: 0 <= k < |o| ==> o[k] < |p|
    ensures Sum(Gather(p, o)) == Sum(Gather(p, o[..|o| - 1])) + p[o[|o| - 1]]
  {
    assert Gather(p, o)[..|o| - 1] == Gather(p, o[..|o| - 1]);
  }

  /** Skipping the visit at position j takes away the value it visits. */
  lemma SumGatherRemove(p: seq<real>, o: seq<nat>, j: nat)
    requires j < |o| && forall k :: 0 <= k < |o| ==> o[k] < |p|
    ensures Sum(Gather(p, o)) == Sum(Gather(p, o[..j] + o[j + 1..])) + p[o[j]]
  {
    var g := Gather(p, o);
    SumRemove(g, j);
    assert g[..j] + g[j + 1..] == Gather(p, o[..j] + o[j + 1..]);
  }

  /**
   The last index of one ordering occurs somewhere in the other, and the
   orderings without those two occurrences are again permutations.
   */
  lemma PermutationStep<T>(o1: seq<T>, o2: seq<T>) returns (j: nat)
    requires |o1| > 0 && multiset(o1) == multiset(o2)
    ensures j < |o2| && o2[j] == o1[|o1| - 1]
    ensures multiset(o1[..|o1| - 1]) == multiset(o2[..j] + o2[j + 1..])
  {
    var last := |o1| - 1;
    assert o1[last] in multiset(o2);
    j :| 0 <= j < |o2| && o2[j] == o1[last];
    MultisetRemove(o2, j);
    MultisetRemove(o1, last);
    assert o1[..last] + o1[last + 1..] == o1[..last];
  }

  /**
   Visiting the same indices in any order gives the same total: the order
   in which partial results are added does not change their sum.
   */
  lemma {:induction false} SumGatherPermutation(p: seq<real>, o1: seq<nat>, o2: seq<nat>)
    requires forall k :: 0 <= k < |o1| ==> o1[k] < |p|
    requires multiset(o1) == multiset(o2)
    ensures forall k :: 0 <= k < |o2| ==> o2[k] < |p|
    ensures Sum(Gather(p, o1)) == Sum(Gather(p, o2))
    decreases |o1|
  {
    PermutationInRange(|p|, o1, o2);
    if o1 == [] {
      assert |multiset(o2)| == 0;
    } else {
      var j := PermutationStep(o1, o2);
      SumGatherPermutation(p, o1[..|o1| - 1], o2[..j] + o2[j + 1..]);
      SumGatherSnoc(p, o1);
      SumGatherRemove(p, o2, j);
    }
  }

  /** Visiting every index once in ascending order visits `p` itself. */
  lemma GatherRanks(p: seq<real>)
    ensures Gather(p, Ranks(|p|)) == p
  {
  }
}
