/**
 The estimator whose threads add their partial sums into the shared total
 without synchronisation. The block sums are modelled. The unsynchronised
 additions, which can lose updates, are left out: which updates survive
 depends on how the threads' loads and stores interleave, and the model
 takes what they leave in the total as a parameter instead.
 */
module PiRace {
  import opened PiSeries
  import opened RealSums
  import opened ThreadBlocks

  /**
   The program: two arguments (argc == 3) are required, otherwise it stops
   with status 1 before computing anything. `n` and `t` are the parsed
   arguments and `raced` the total the racing additions left behind. Each
   thread's partial sum is the sum of its own block, and the estimate is
   four times the total; when no update is lost, that total is the serial
   sum of the first t * (n / t) terms. With no threads, nothing races:
   no thread runs and the total stays 0.
   */
  method RunRace(argc: int, n: int, t: int, raced: real) returns (o: Outcome, partials: seq<real>)
    requires argc == 3 ==> n >= 0
    ensures argc != 3 <==> o == UsageError
    ensures o.ExitStatus() == if argc != 3 then 1 else 0
    ensures argc != 3 || t <= 0 ==> partials == []
    ensures argc == 3 && t >= 1 ==> |partials| == t
    ensures argc == 3 && t >= 1 ==> forall r :: 0 <= r < t ==>
      partials[r] == SeriesSum(FirstIndex(n, t, r), LastIndex(n, t, r))
    ensures argc == 3 && t >= 1 ==> o.sum == raced && o.piApprox == 4.0 * raced
    ensures argc == 3 && t >= 1 && raced == Sum(partials) ==> o.sum == SeriesSum(0, Covered(n, t))
    ensures argc == 3 && t <= 0 ==> o.sum == 0.0 && o.piApprox == 0.0
  {
    if argc != 3 {
      return UsageError, [];
    }
    if t <= 0 {
      return Estimate(0.0, 4.0 * 0.0), [];
    }
    partials := RunThreads(n, t);
    PartialSumsTotal(n, t);
    o := Estimate(raced, 4.0 * raced);
  }
}
