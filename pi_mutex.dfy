/**
 The estimator whose threads add their partial sums into the shared total
 inside a mutex. With the lock, each addition is atomic, so the run is
 modelled as the threads' independent block sums followed by one addition
 per thread, in whatever order the threads acquire the lock.
 */
module PiMutex {
  import opened PiSeries
  import opened RealSums
  import opened ThreadBlocks

  /**
   The program: two arguments (argc == 3) are required, otherwise it stops
   with status 1 before computing anything. `n` and `t` are the parsed
   arguments; `order` is the order in which the t threads enter the
   critical section, any permutation of the ranks. Whatever that order,
   the total is the serial sum of the first t * (n / t) terms. With no
   threads, neither the create nor the join loop runs and the total stays
   0.
   */
  method RunMutex(argc: int, n: int, t: int, order: seq<nat>) returns (o: Outcome)
    requires argc == 3 ==> n >= 0 && (t >= 1 ==> multiset(order) == multiset(Ranks(t)))
    ensures argc != 3 <==> o == UsageError
    ensures o.ExitStatus() == if argc != 3 then 1 else 0
    ensures argc == 3 && t >= 1 ==> o.sum == SeriesSum(0, Covered(n, t)) && o.piApprox == 4.0 * o.sum
    ensures argc == 3 && t <= 0 ==> o.sum == 0.0 && o.piApprox == 0.0
  {
    if argc != 3 {
      return UsageError;
    }
    if t <= 0 {
      return Estimate(0.0, 4.0 * 0.0);
    }
    var partials := RunThreads(n, t);
    PermutationInRange(t, Ranks(t), order);
    assert |order| == |multiset(order)| == t;
    var sum := 0.0;
    for k := 0 to t
      invariant sum == Sum(Gather(partials, order[..k]))
    {
      assert Gather(partials, order[..k + 1]) == Gather(partials, order[..k]) + [partials[order[k]]];
      SumSnoc(Gather(partials, order[..k]), partials[order[k]]);
      sum := sum + partials[order[k]];
    }
    assert order[..t] == order;
    SumGatherPermutation(partials, Ranks(t), order);
    GatherRanks(partials);
    PartialSumsTotal(n, t);
    o := Estimate(sum, 4.0 * sum);
  }
}
