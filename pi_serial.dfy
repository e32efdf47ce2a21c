/** The single-threaded estimator: one loop over the first n terms. */
module PiSerial {
  import opened PiSeries

  /**
   The summation loop: `factor` starts at 1 and is negated after every
   term, so it is (-1)^i when term i is added. The ghost `visited` records
   the indices in the order the loop takes them.
   */
  method SerialSum(n: int) returns (sum: real, ghost visited: seq<int>)
    ensures sum == SeriesSum(0, n)
    ensures n <= 0 ==> sum == 0.0 && visited == []
    ensures n > 0 ==> |visited| == n && forall k :: 0 <= k < n ==> visited[k] == k
  {
    sum := 0.0;
    var factor := 1.0;
    visited := [];
    var i := 0;
    while i < n
      invariant 0 <= i && (n > 0 ==> i <= n) && (n <= 0 ==> i == 0)
      invariant factor == Power(i)
      invariant sum == SeriesSum(0, i)
      invariant |visited| == i && forall k :: 0 <= k < i ==> visited[k] == k
    {
      SeriesStep(0, i, factor);
      sum := sum + factor / (2 * i + 1) as real;
      factor := -factor;
      visited := visited + [i];
      i := i + 1;
    }
  }

  /**
   The program: exactly one argument (argc == 2) is required; otherwise it
   stops with status 1 before computing anything. `n` is the already
   parsed argument.
   */
  method RunSerial(argc: int, n: int) returns (o: Outcome)
    ensures argc != 2 <==> o == UsageError
    ensures o.ExitStatus() == if argc != 2 then 1 else 0
    ensures argc == 2 ==> o.sum == SeriesSum(0, n) && o.piApprox == 4.0 * o.sum
  {
    if argc != 2 {
      return UsageError;
    }
    var sum, _ := SerialSum(n);
    o := Estimate(sum, 4.0 * sum);
  }
}
