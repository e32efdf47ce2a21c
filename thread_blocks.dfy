/**
 How the threaded estimators split the first n terms among t threads, and
 the per-thread summation loop they share. Thread `rank` takes the block
 [rank * (n / t), rank * (n / t) + n / t); the last n % t terms belong to
 no block. `n` and `t` are the already parsed arguments, with n >= 0 (so
 that truncating and Euclidean division agree) and t >= 1.
 */
module ThreadBlocks {
  import opened PiSeries
  import opened RealSums

  /** `my_n`: the number of terms every thread sums. */
  function BlockSize(n: nat, t: nat): nat
    requires t >= 1
  {
    n / t
  }

  /** `my_first_i`: the first index of thread `rank`'s block. */
  function FirstIndex(n: nat, t: nat, rank: nat): nat
    requires t >= 1
  {
    BlockSize(n, t) * rank
  }

  /** `my_last_i`: one past the last index of thread `rank`'s block. */
  function LastIndex(n: nat, t: nat, rank: nat): nat
    requires t >= 1
  {
    FirstIndex(n, t, rank) + BlockSize(n, t)
  }

  /** Index i lies in thread `rank`'s block. */
  predicate InBlock(n: nat, t: nat, rank: nat, i: int)
    requires t >= 1
  {
    FirstIndex(n, t, rank) <= i < LastIndex(n, t, rank)
  }

  /** The number of indices that some thread sums. */
  function Covered(n: nat, t: nat): (c: nat)
    requires t >= 1
    ensures c <= n && n - c == n % t
  {
    BlockSize(n, t) * t
  }

  /** Each block ends where the next rank's block starts. */
  lemma BlocksConsecutive(n: nat, t: nat, rank: nat)
    requires t >= 1
    ensures LastIndex(n, t, rank) == FirstIndex(n, t, rank + 1)
    ensures LastIndex(n, t, rank) - FirstIndex(n, t, rank) == n / t
  {
  }

  /** Blocks move forward with the rank. */
  lemma {:induction false} BlocksOrdered(n: nat, t: nat, r1: nat, r2: nat)
    requires t >= 1 && r1 < r2
    ensures LastIndex(n, t, r1) <= FirstIndex(n, t, r2)
    decreases r2 - r1
  {
    BlocksConsecutive(n, t, r1);
    if r1 + 1 < r2 {
      BlocksOrdered(n, t, r1 + 1, r2);
    }
  }

  /** Two different ranks never share an index. */
  lemma BlocksDisjoint(n: nat, t: nat, r1: nat, r2: nat, i: int)
    requires t >= 1 && r1 != r2
    ensures !(InBlock(n, t, r1, i) && InBlock(n, t, r2, i))
  {
    if r1 < r2 {
      BlocksOrdered(n, t, r1, r2);
    } else {
      BlocksOrdered(n, t, r2, r1);
    }
  }

  /** The last rank's block ends exactly at the covered prefix. */
  lemma LastBlockEnd(n: nat, t: nat)
    requires t >= 1
    ensures LastIndex(n, t, t - 1) == Covered(n, t)
  {
    BlocksConsecutive(n, t, t - 1);
  }

  /** Multiplying by a natural number keeps the order. */
  lemma MulMonotone(a: nat, b: nat, m: nat)
    requires a <= b
    ensures a * m <= b * m
  {
    assert b * m == a * m + (b - a) * m;
  }

  /** A covered index lies in the block of rank i / (n / t). */
  lemma CoveredIndexInBlock(n: nat, t: nat, i: int)
    requires t >= 1 && 0 <= i < Covered(n, t)
    ensures n / t > 0 && i / (n / t) < t && InBlock(n, t, i / (n / t), i)
  {
    var m := n / t;
    assert m > 0;
    var r := i / m;
    assert i == r * m + i % m;
    if r >= t {
      MulMonotone(t, r, m);
    }
  }

  /** An index in the block of a rank below t is covered. */
  lemma BlockIndexCovered(n: nat, t: nat, r: nat, i: int)
    requires t >= 1 && r < t && InBlock(n, t, r, i)
    ensures 0 <= i < Covered(n, t)
  {
    LastBlockEnd(n, t);
    if r < t - 1 {
      BlocksOrdered(n, t, r, t - 1);
    }
  }

  /**
   The blocks of ranks 0 .. t-1 cover exactly [0, t * (n / t)): an index
   is summed by some thread if and only if it lies in that prefix, so the
   last n % t indices are summed by none.
   */
  lemma BlocksCover(n: nat, t: nat, i: int)
    requires t >= 1
    ensures (0 <= i < Covered(n, t)) <==> exists r :: 0 <= r < t && InBlock(n, t, r, i)
  {
    if 0 <= i < Covered(n, t) {
      CoveredIndexInBlock(n, t, i);
    }
    if r :| 0 <= r < t && InBlock(n, t, r, i) {
      BlockIndexCovered(n, t, r, i);
    }
  }

  /**
   `Thread_sum`: thread `rank` sums the terms of its block. The initial
   `factor` is 1 exactly when the first index is even, and it is negated
   after each term, so `factor == (-1)^i` throughout; the loop body runs
   once per index of the block, in ascending order, as `visited` records.
   */
  method ThreadSum(n: nat, t: nat, rank: nat) returns (mySum: real, ghost visited: seq<int>)
    requires t >= 1
    ensures mySum == SeriesSum(FirstIndex(n, t, rank), LastIndex(n, t, rank))
    ensures |visited| == n / t
    ensures forall k :: 0 <= k < |visited| ==> visited[k] == FirstIndex(n, t, rank) + k
  {
    var myN := n / t;
    var myFirst := myN * rank;
    var myLast := myFirst + myN;
    mySum := 0.0;
    var factor: real;
    if myFirst % 2 == 0 {
      factor := 1.0;
    } else {
      factor := -1.0;
    }
    PowerParity(myFirst);
    visited := [];
    var i := myFirst;
    while i < myLast
      invariant myFirst <= i <= myLast
      invariant factor == Power(i)
      invariant mySum == SeriesSum(myFirst, i)
      invariant |visited| == i - myFirst
      invariant forall k :: 0 <= k < |visited| ==> visited[k] == myFirst + k
    {
      SeriesStep(myFirst, i, factor);
      mySum := mySum + factor / (2 * i + 1) as real;
      factor := -factor;
      visited := visited + [i];
      i := i + 1;
    }
  }

  /** The value each thread's `my_sum` ends with, by rank. */
  function PartialSums(n: nat, t: nat): (p: seq<real>)
    requires t >= 1
    ensures |p| == t
    ensures forall r :: 0 <= r < t ==> p[r] == SeriesSum(FirstIndex(n, t, r), LastIndex(n, t, r))
  {
    seq(t, r requires 0 <= r < t => SeriesSum(FirstIndex(n, t, r), LastIndex(n, t, r)))
  }

  /**
   The create/join loops over ranks 0 .. t-1: every thread runs
   `ThreadSum` on its own block, independently of the others, and leaves
   its `my_sum`. How the partial sums are then combined differs between
   the programs.
   */
  method RunThreads(n: nat, t: nat) returns (partials: seq<real>)
    requires t >= 1
    ensures partials == PartialSums(n, t)
  {
    partials := [];
    for rank := 0 to t
      invariant |partials| == rank
      invariant forall r :: 0 <= r < rank ==> partials[r] == PartialSums(n, t)[r]
    {
      var mySum, _ := ThreadSum(n, t, rank);
      partials := partials + [mySum];
    }
  }

  /** The partial sums of ranks 0 .. k-1 add up to the first k * (n / t) terms. */
  lemma {:induction false} PartialSumsPrefix(n: nat, t: nat, k: nat)
    requires t >= 1 && k <= t
    ensures Sum(PartialSums(n, t)[..k]) == SeriesSum(0, FirstIndex(n, t, k))
  {
    if k > 0 {
      var p := PartialSums(n, t);
      PartialSumsPrefix(n, t, k - 1);
      assert p[..k][..k - 1] == p[..k - 1];
      BlocksConsecutive(n, t, k - 1);
      SeriesSplit(0, FirstIndex(n, t, k - 1), FirstIndex(n, t, k));
    }
  }

  /**
   All threads' partial sums together are the serial sum of the first
   t * (n / t) terms.
   */
  lemma PartialSumsTotal(n: nat, t: nat)
    requires t >= 1
    ensures Sum(PartialSums(n, t)) == SeriesSum(0, Covered(n, t))
  {
    PartialSumsPrefix(n, t, t);
    assert PartialSums(n, t)[..t] == PartialSums(n, t);
  }

  /**
   What the decomposition loses against the serial loop over the same n:
   exactly the terms of the uncovered tail, which is empty when t divides n.
   */
  lemma DroppedTail(n: nat, t: nat)
    requires t >= 1
    ensures SeriesSum(0, n) == Sum(PartialSums(n, t)) + SeriesSum(Covered(n, t), n)
    ensures n % t == 0 ==> Sum(PartialSums(n, t)) == SeriesSum(0, n)
  {
    PartialSumsTotal(n, t);
    SeriesSplit(0, Covered(n, t), n);
  }
}
