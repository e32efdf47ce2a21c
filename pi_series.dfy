/**
 The Gregory-Leibniz series pi/4 = sum over i >= 0 of (-1)^i / (2i + 1),
 over the reals, as shared by the serial and the threaded estimators.
 */
module PiSeries {

  /** (-1)^i, defined by repeated negation. */
  function Power(i: nat): real
  {
    if i == 0 then 1.0 else -Power(i - 1)
  }

  /** The sign can be read off the parity of the exponent. */
  lemma {:induction false} PowerParity(i: nat)
    ensures Power(i) == if i % 2 == 0 then 1.0 else -1.0
  {
    if i > 0 {
      PowerParity(i - 1);
    }
  }

  /** The denominator of term i; it is never zero. */
  function Denominator(i: nat): (d: int)
    ensures d > 0 && d % 2 == 1
  {
    2 * i + 1
  }

  /** Term i of the series. */
  function Term(i: nat): real
  {
    Power(i) / Denominator(i) as real
  }

  /** The terms with index in [lo, hi), added from the lowest index up. */
  function SeriesSum(lo: nat, hi: int): real
    decreases hi - lo
  {
    if hi <= lo then 0.0 else SeriesSum(lo, hi - 1) + Term(hi - 1)
  }

  /**
   One step of a summation loop: with `factor` at (-1)^i, adding
   factor / (2i + 1) extends the sum by term i, and the negated factor is
   (-1)^(i+1).
   */
  lemma SeriesStep(lo: nat, i: nat, factor: real)
    requires lo <= i && factor == Power(i)
    ensures SeriesSum(lo, i + 1) == SeriesSum(lo, i) + factor / (2 * i + 1) as real
    ensures -factor == Power(i + 1)
  {
  }

  /** A range of terms can be summed as two adjacent sub-ranges. */
  lemma {:induction false} SeriesSplit(lo: nat, mid: nat, hi: nat)
    requires lo <= mid <= hi
    ensures SeriesSum(lo, hi) == SeriesSum(lo, mid) + SeriesSum(mid, hi)
    decreases hi - mid
  {
    if hi > mid {
      SeriesSplit(lo, mid, hi - 1);
    }
  }

  /** How an estimator program ends: a usage error, or an estimate of pi. */
  datatype Outcome = UsageError | Estimate(sum: real, piApprox: real)
  {
    /** The process exit status. */
    function ExitStatus(): (status: int)
      ensures status == 0 <==> Estimate?
      ensures status == 1 <==> UsageError?
    {
      if UsageError? then 1 else 0
    }
  }
}
