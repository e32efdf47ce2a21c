/**
 The data reduction behind the six benchmark charts, with the drawing
 left out: the y-axis time unit, the mean time per iteration count, the
 serial baseline, the speedup and efficiency series, the bar series and
 the low-iteration overhead series. Times are reals.
 */
module Charts {
  import opened RealSums
  import opened Tables

  const Serial: string := "01_pi_serial"
  const BusyWait: string := "03_pi_parallel_busy"
  const Mutex: string := "05_pi_parallel_mutex"

  /** The iteration count of the speedup, efficiency and bar charts. */
  const TenMillion: int := 10000000
  /** The largest iteration count of the overhead chart. */
  const LowIterationLimit: int := 10000
  /** Speedup and efficiency are looked up for 1 .. MaxThreads threads. */
  const MaxThreads: int := 6
  const MicrosPerSecond: real := 1000000.0

  /** The programs kept for the busy-wait comparison chart. */
  const ComparedPrograms: seq<string> := [Serial, BusyWait, Mutex]

  // ---------------------------------------------------------------
  // The y-axis formatter
  // ---------------------------------------------------------------

  datatype TimeUnit = Seconds | Milliseconds | Microseconds

  /** The label of a tick: the scaled value, its decimal places and its unit. */
  datatype TimeLabel = TimeLabel(scaled: real, decimals: nat, unit: TimeUnit)

  /** How many of the unit make one second. */
  function PerSecond(u: TimeUnit): real
  {
    match u
    case Seconds => 1.0
    case Milliseconds => 1000.0
    case Microseconds => MicrosPerSecond
  }

  /**
   `format_time`: the thresholds are tried from the largest down, so each
   value gets exactly one unit; between a microsecond and a second the
   scaled value lies in [1, 1000) and has no decimals.
   */
  function FormatTime(value: real): (tick: TimeLabel)
    ensures tick.unit == Seconds <==> value >= 1.0
    ensures tick.unit == Milliseconds <==> 0.001 <= value < 1.0
    ensures tick.unit == Microseconds <==> value < 0.001
    ensures tick.scaled == value * PerSecond(tick.unit)
    ensures tick.decimals == 1 <==> value >= 1.0
    ensures tick.decimals == 2 <==> value < 0.000001
    ensures 0.000001 <= value < 1.0 ==> tick.decimals == 0 && 1.0 <= tick.scaled < 1000.0
  {
    if value >= 1.0 then TimeLabel(value, 1, Seconds)
    else if value >= 0.001 then TimeLabel(value * 1000.0, 0, Milliseconds)
    else if value >= 0.000001 then TimeLabel(value * MicrosPerSecond, 0, Microseconds)
    else TimeLabel(value * MicrosPerSecond, 2, Microseconds)
  }

  // ---------------------------------------------------------------
  // Row selections
  // ---------------------------------------------------------------

  function IsProgram(p: string): Record -> bool
  {
    (x: Record) => x.program == p
  }

  function HasIterations(k: int): Record -> bool
  {
    (x: Record) => x.iterations == k
  }

  /** The rows of program p run with h threads. */
  function RunOf(p: string, h: int): Record -> bool
  {
    (x: Record) => x.program == p && x.threads == h
  }

  /** The rows of program p run with k iterations, whatever their thread count. */
  function RunAt(p: string, k: int): Record -> bool
  {
    (x: Record) => x.program == p && x.iterations == k
  }

  /** The rows of the overhead chart. */
  function IsLow(): Record -> bool
  {
    (x: Record) => x.iterations <= LowIterationLimit
  }

  /** The rows of the comparison chart. */
  function IsCompared(): Record -> bool
  {
    (x: Record) => x.program in ComparedPrograms
  }

  /** `df_10M`: the rows run with ten million iterations. */
  function TenMillionRows(df: seq<Record>): (r: seq<Record>)
    ensures forall x :: multiset(r)[x] == if x.iterations == TenMillion then multiset(df)[x] else 0
    ensures forall x :: x in r <==> x in df && x.iterations == TenMillion
  {
    WhereMembers(df, HasIterations(TenMillion));
    WhereCounts(df, HasIterations(TenMillion));
    Where(df, HasIterations(TenMillion))
  }

  /** `df_bajo`: the rows run with at most LowIterationLimit iterations. */
  function LowRows(df: seq<Record>): (r: seq<Record>)
    ensures forall x :: multiset(r)[x] == if x.iterations <= LowIterationLimit then multiset(df)[x] else 0
    ensures forall x :: x in r <==> x in df && x.iterations <= LowIterationLimit
  {
    WhereMembers(df, IsLow());
    WhereCounts(df, IsLow());
    Where(df, IsLow())
  }

  /** `df_comparacion`: the rows of the serial, busy-wait and mutex programs. */
  function ComparisonRows(df: seq<Record>): (r: seq<Record>)
    ensures forall x :: multiset(r)[x] == if x.program in ComparedPrograms then multiset(df)[x] else 0
    ensures forall x :: x in r <==> x in df && (x.program == Serial || x.program == BusyWait || x.program == Mutex)
  {
    WhereMembers(df, IsCompared());
    WhereCounts(df, IsCompared());
    Where(df, IsCompared())
  }

  // ---------------------------------------------------------------
  // Mean time by iteration count (charts 1 and 6)
  // ---------------------------------------------------------------

  datatype Point = Point(key: int, value: real)

  function KeysOf(ps: seq<Point>): (ks: seq<int>)
    ensures |ks| == |ps| && forall k :: 0 <= k < |ps| ==> ks[k] == ps[k].key
  {
    seq(|ps|, k requires 0 <= k < |ps| => ps[k].key)
  }

  /**
   The mean of one `groupby('iteraciones')` group of a program's rows:
   the mean time of all rows of that program with that iteration count.
   */
  function GroupMean(df: seq<Record>, program: string, key: int): (m: real)
    requires key in IterationsOf(Where(df, IsProgram(program)))
    ensures Where(df, RunAt(program, key)) != []
    ensures m == Mean(TimesOf(Where(df, RunAt(program, key))))
  {
    var mine := Where(df, IsProgram(program));
    var j :| 0 <= j < |mine| && mine[j].iterations == key;
    WhereMembers(mine, HasIterations(key));
    assert mine[j] in Where(mine, HasIterations(key));
    WhereWhereEquiv(df, IsProgram(program), HasIterations(key), RunAt(program, key));
    Mean(TimesOf(Where(mine, HasIterations(key))))
  }

  /**
   The program's rows grouped by iteration count and averaged: one point
   per distinct iteration count of the program's rows, in ascending
   order, each the mean time of the rows with that count. A program with
   no rows gets an empty series.
   */
  function MeanByIterations(df: seq<Record>, program: string): (curve: seq<Point>)
    ensures StrictlyIncreasing(KeysOf(curve))
    ensures forall j :: 0 <= j < |df| && df[j].program == program ==> df[j].iterations in KeysOf(curve)
    ensures forall k :: 0 <= k < |curve| ==>
              && Where(df, RunAt(program, curve[k].key)) != []
              && curve[k].value == Mean(TimesOf(Where(df, RunAt(program, curve[k].key))))
    ensures (forall j :: 0 <= j < |df| ==> df[j].program != program) ==> curve == []
  {
    var mine := Where(df, IsProgram(program));
    var keys := SortedDistinct(IterationsOf(mine));
    WhereMembers(df, IsProgram(program));
    var curve := seq(|keys|, k requires 0 <= k < |keys| => Point(keys[k], GroupMean(df, program, keys[k])));
    assert KeysOf(curve) == keys;
    assert forall j :: 0 <= j < |df| && df[j].program == program ==> df[j] in mine;
    assert mine != [] ==> mine[0] in mine && mine[0] in df && mine[0].program == program;
    curve
  }

  /** One line of a chart: a program and its points. */
  datatype Curve = Curve(program: string, points: seq<Point>)

  /**
   Chart 1: for each program of the table, once and in order of first
   appearance, its mean time by iteration count.
   */
  function IterationCurves(df: seq<Record>): (cs: seq<Curve>)
    ensures forall i, j :: 0 <= i < j < |cs| ==> cs[i].program != cs[j].program
    ensures forall k :: 0 <= k < |cs| ==> cs[k].program in ProgramsOf(df)
    ensures forall v :: v in ProgramsOf(df) ==> exists k :: 0 <= k < |cs| && cs[k].program == v
    ensures forall k :: 0 <= k < |cs| ==> cs[k].points == MeanByIterations(df, cs[k].program)
  {
    var ps := UniqueInOrder(ProgramsOf(df));
    var cs := seq(|ps|, k requires 0 <= k < |ps| => Curve(ps[k], MeanByIterations(df, ps[k])));
    assert forall k :: 0 <= k < |ps| ==> cs[k].program == ps[k];
    cs
  }

  /**
   Chart 6 draws the serial, mutex and busy-wait series from the
   comparison subset; for those programs the subset changes nothing.
   */
  lemma ComparisonKeepsMeans(df: seq<Record>, p: string)
    requires p in ComparedPrograms
    ensures MeanByIterations(ComparisonRows(df), p) == MeanByIterations(df, p)
  {
    WhereWhereEquiv(df, IsCompared(), IsProgram(p), IsProgram(p));
    var c1 := MeanByIterations(ComparisonRows(df), p);
    var c2 := MeanByIterations(df, p);
    assert |c1| == |c2|;
    forall k | 0 <= k < |c1| ensures c1[k] == c2[k] {
      WhereWhereEquiv(df, IsCompared(), RunAt(p, c1[k].key), RunAt(p, c1[k].key));
    }
  }

  /** The keys of a program's mean series are exactly the iteration counts of its rows. */
  lemma KeysPresent(df: seq<Record>, p: string)
    ensures forall v :: v in KeysOf(MeanByIterations(df, p)) <==>
              exists x :: x in df && x.program == p && x.iterations == v
  {
    var c := MeanByIterations(df, p);
    forall v | v in KeysOf(c)
      ensures exists x :: x in df && x.program == p && x.iterations == v
    {
      var k :| 0 <= k < |c| && c[k].key == v;
      var g := Where(df, RunAt(p, v));
      WhereMembers(df, RunAt(p, v));
      assert g[0] in g;
    }
    forall v | exists x :: x in df && x.program == p && x.iterations == v
      ensures v in KeysOf(c)
    {
      var x :| x in df && x.program == p && x.iterations == v;
      var j :| 0 <= j < |df| && df[j] == x;
    }
  }

  /** Reordering a selection does not change its number of rows or its total time. */
  lemma {:induction false} SumTimesPermutation(a: seq<Record>, b: seq<Record>)
    requires multiset(a) == multiset(b)
    ensures |a| == |b| && Sum(TimesOf(a)) == Sum(TimesOf(b))
    decreases |a|
  {
    assert |a| == |multiset(a)| == |multiset(b)| == |b|;
    if a != [] {
      var last := |a| - 1;
      var j := PermutationStep(a, b);
      var rest := b[..j] + b[j + 1..];
      SumTimesPermutation(a[..last], rest);
      assert TimesOf(a)[..last] == TimesOf(a[..last]);
      assert Sum(TimesOf(a)) == Sum(TimesOf(a[..last])) + a[last].seconds;
      SumRemove(TimesOf(b), j);
      assert TimesOf(b)[..j] + TimesOf(b)[j + 1..] == TimesOf(rest);
      assert Sum(TimesOf(b)) == Sum(TimesOf(rest)) + b[j].seconds;
    }
  }

  /**
   The mean series of a program does not depend on the order of the rows
   in the table: any reordering of the table gives the same points.
   */
  lemma MeanByIterationsPermutation(df1: seq<Record>, df2: seq<Record>, p: string)
    requires multiset(df1) == multiset(df2)
    ensures MeanByIterations(df1, p) == MeanByIterations(df2, p)
  {
    var c1, c2 := MeanByIterations(df1, p), MeanByIterations(df2, p);
    SameKeys(df1, df2, p);
    assert |c1| == |KeysOf(c1)| == |KeysOf(c2)| == |c2|;
    forall k | 0 <= k < |c1| ensures c1[k] == c2[k] {
      assert c1[k].key == KeysOf(c1)[k] == KeysOf(c2)[k] == c2[k].key;
      GroupMeanPermutation(df1, df2, RunAt(p, c1[k].key));
    }
  }

  /** A table and a reordering of it give a program the same iteration counts. */
  lemma SameKeys(df1: seq<Record>, df2: seq<Record>, p: string)
    requires multiset(df1) == multiset(df2)
    ensures KeysOf(MeanByIterations(df1, p)) == KeysOf(MeanByIterations(df2, p))
  {
    KeysPresent(df1, p);
    KeysPresent(df2, p);
    forall x ensures x in df1 <==> x in df2 {
      assert x in df1 <==> x in multiset(df1);
      assert x in df2 <==> x in multiset(df2);
    }
    StrictlyIncreasingUnique(KeysOf(MeanByIterations(df1, p)), KeysOf(MeanByIterations(df2, p)));
  }

  /** A selection from a table and from a reordering of it have the same mean time. */
  lemma GroupMeanPermutation(df1: seq<Record>, df2: seq<Record>, keep: Record -> bool)
    requires multiset(df1) == multiset(df2)
    ensures |Where(df1, keep)| == |Where(df2, keep)|
    ensures Where(df1, keep) != [] ==> Mean(TimesOf(Where(df1, keep))) == Mean(TimesOf(Where(df2, keep)))
  {
    WhereCounts(df1, keep);
    WhereCounts(df2, keep);
    assert multiset(Where(df1, keep)) == multiset(Where(df2, keep));
    SumTimesPermutation(Where(df1, keep), Where(df2, keep));
  }

  // ---------------------------------------------------------------
  // Baseline, speedup and efficiency (charts 2 and 4)
  // ---------------------------------------------------------------

  /** The first row of a filtered table that passes a second filter. */
  lemma FirstTimeOfWhere(rows: seq<Record>, p: Record -> bool, q: Record -> bool, pq: Record -> bool)
    requires forall x :: pq(x) == (p(x) && q(x))
    ensures FirstTime(Where(rows, p), q) == FirstTime(rows, pq)
  {
    WhereWhereEquiv(rows, p, q, pq);
  }

  /**
   `tiempo_serial`: the time of the first serial row of the ten-million
   subset. None stands for the failure of `values[0]` on an empty
   selection, after which no speedup is computed.
   */
  function Baseline(df: seq<Record>): (b: Option<real>)
    ensures b.None? <==> forall j :: 0 <= j < |df| ==> !(df[j].program == Serial && df[j].iterations == TenMillion)
    ensures b.Some? ==> exists j ::
                          && 0 <= j < |df| && df[j].program == Serial && df[j].iterations == TenMillion
                          && df[j].seconds == b.value
                          && forall i :: 0 <= i < j ==> !(df[i].program == Serial && df[i].iterations == TenMillion)
  {
    FirstTimeOfWhere(df, HasIterations(TenMillion), IsProgram(Serial), RunAt(Serial, TenMillion));
    FirstTimeFirstMatch(df, RunAt(Serial, TenMillion));
    FirstTime(TenMillionRows(df), IsProgram(Serial))
  }

  /**
   The speedup of program p with h threads: the baseline over the time of
   the first matching row, or None when the program has no row for h.
   */
  function SpeedupAt(df10M: seq<Record>, p: string, baseline: real, h: int): (s: Option<real>)
    requires PositiveTimes(df10M)
    ensures s.None? <==> forall j :: 0 <= j < |df10M| ==> !(df10M[j].program == p && df10M[j].threads == h)
    ensures s.Some? ==> exists j ::
                          && 0 <= j < |df10M| && df10M[j].program == p && df10M[j].threads == h
                          && s.value == baseline / df10M[j].seconds
                          && forall i :: 0 <= i < j ==> !(df10M[i].program == p && df10M[i].threads == h)
  {
    FirstTimeFirstMatch(df10M, RunOf(p, h));
    match FirstTime(df10M, RunOf(p, h))
    case None => None
    case Some(t) => Some(baseline / t)
  }

  /**
   The efficiency of program p with h threads, in percent: the speedup
   per thread, with nothing clamped (values over 100 are kept).
   */
  function EfficiencyAt(df10M: seq<Record>, p: string, baseline: real, h: int): (e: Option<real>)
    requires PositiveTimes(df10M) && h >= 1
  {
    FirstTimePositive(df10M, RunOf(p, h));
    match FirstTime(df10M, RunOf(p, h))
    case None => None
    case Some(t) => Some((baseline / t / h as real) * 100.0)
  }

  /**
   Efficiency is given for the same thread counts as speedup, and h
   threads at efficiency e reach speedup e * h / 100. Nothing is clamped:
   efficiency is 100 percent exactly at linear speedup and exceeds it
   exactly for super-linear speedup.
   */
  lemma EfficiencyUnclamped(df10M: seq<Record>, p: string, baseline: real, h: int)
    requires PositiveTimes(df10M) && h >= 1
    ensures EfficiencyAt(df10M, p, baseline, h).Some? <==> SpeedupAt(df10M, p, baseline, h).Some?
    ensures SpeedupAt(df10M, p, baseline, h).Some? ==>
              var e := EfficiencyAt(df10M, p, baseline, h).value;
              var s := SpeedupAt(df10M, p, baseline, h).value;
              && e * h as real == s * 100.0
              && (e > 100.0 <==> s > h as real)
              && (e == 100.0 <==> s == h as real)
  {
    var first := FirstTime(df10M, RunOf(p, h));
    FirstTimePositive(df10M, RunOf(p, h));
    if first.Some? {
      var s := baseline / first.value;
      assert SpeedupAt(df10M, p, baseline, h) == Some(s);
      assert EfficiencyAt(df10M, p, baseline, h) == Some((s / h as real) * 100.0);
      PercentOfShare(s, h as real);
    }
  }

  /** s / hr in percent, against s itself: the arithmetic of efficiency. */
  lemma PercentOfShare(s: real, hr: real)
    requires hr >= 1.0
    ensures (s / hr) * 100.0 * hr == s * 100.0
    ensures (s / hr) * 100.0 > 100.0 <==> s > hr
    ensures (s / hr) * 100.0 == 100.0 <==> s == hr
  {
    var q := s / hr;
    assert q * hr == s;
    assert q * 100.0 * hr == (q * hr) * 100.0;
    if q > 1.0 {
      assert q * hr > 1.0 * hr;
    }
    if s > hr {
      assert q * hr > 1.0 * hr;
    }
  }

  /** A run exactly as fast as the baseline has speedup 1. */
  lemma SpeedupOfBaselineTime(df10M: seq<Record>, p: string, h: int)
    requires PositiveTimes(df10M)
    requires FirstTime(df10M, RunOf(p, h)).Some?
    ensures SpeedupAt(df10M, p, FirstTime(df10M, RunOf(p, h)).value, h) == Some(1.0)
  {
    var data := Where(df10M, RunOf(p, h));
    WhereMembers(df10M, RunOf(p, h));
    assert data[0] in data && data[0] in df10M;
    var t := data[0].seconds;
    assert t > 0.0;
    assert SpeedupAt(df10M, p, t, h) == Some(t / t);
    assert t / t == 1.0;
  }

  /**
   The thread counts in 1 .. hi for which program p has a row, ascending:
   the x values of its speedup and efficiency lines. Missing counts are
   left out, not given the value zero.
   */
  function PresentThreads(df10M: seq<Record>, p: string, hi: int): (hs: seq<int>)
    ensures StrictlyIncreasing(hs)
    ensures forall k :: 0 <= k < |hs| ==> 1 <= hs[k] <= hi
    ensures forall h :: h in hs <==>
              1 <= h <= hi && exists j :: 0 <= j < |df10M| && df10M[j].program == p && df10M[j].threads == h
    decreases hi
  {
    if hi < 1 then []
    else
      var below := PresentThreads(df10M, p, hi - 1);
      FirstTimeFirstMatch(df10M, RunOf(p, hi));
      assert forall k :: 0 <= k < |below| ==> below[k] in below;
      if FirstTime(df10M, RunOf(p, hi)).Some? then below + [hi] else below
  }

  /**
   The loop of chart 2 for one program: for 1 .. 6 threads, the speedup of
   the first matching row, skipping thread counts without a row.
   */
  method SpeedupSeries(df10M: seq<Record>, p: string, baseline: real) returns (threadCounts: seq<int>, speedups: seq<real>)
    requires PositiveTimes(df10M)
    ensures threadCounts == PresentThreads(df10M, p, MaxThreads)
    ensures |speedups| == |threadCounts|
    ensures forall k :: 0 <= k < |threadCounts| ==> SpeedupAt(df10M, p, baseline, threadCounts[k]) == Some(speedups[k])
  {
    threadCounts, speedups := [], [];
    for h := 1 to MaxThreads + 1
      invariant threadCounts == PresentThreads(df10M, p, h - 1)
      invariant |speedups| == |threadCounts|
      invariant forall k :: 0 <= k < |threadCounts| ==> SpeedupAt(df10M, p, baseline, threadCounts[k]) == Some(speedups[k])
    {
      var data := Where(df10M, RunOf(p, h));
      if data != [] {
        WhereMembers(df10M, RunOf(p, h));
        assert data[0] in df10M;
        var time := data[0].seconds;
        var speedup := baseline / time;
        speedups := speedups + [speedup];
        threadCounts := threadCounts + [h];
      }
    }
  }

  /** Thread count h joins the present ones exactly when it has a row. */
  lemma PresentThreadsStep(df10M: seq<Record>, p: string, h: int)
    requires h >= 1
    ensures PresentThreads(df10M, p, h)
         == if Where(df10M, RunOf(p, h)) == [] then PresentThreads(df10M, p, h - 1)
            else PresentThreads(df10M, p, h - 1) + [h]
  {
  }

  /** The efficiency of the first matching row, as the loop of chart 4 computes it. */
  lemma EfficiencyOfFirstRow(df10M: seq<Record>, p: string, baseline: real, h: int)
    requires PositiveTimes(df10M) && h >= 1
    requires Where(df10M, RunOf(p, h)) != []
    ensures Where(df10M, RunOf(p, h))[0].seconds > 0.0
    ensures EfficiencyAt(df10M, p, baseline, h)
         == Some((baseline / Where(df10M, RunOf(p, h))[0].seconds / h as real) * 100.0)
  {
    WhereMembers(df10M, RunOf(p, h));
    assert Where(df10M, RunOf(p, h))[0] in df10M;
  }

  /** The efficiencies for thread counts 1 .. hi that have a row, in order. */
  function EfficiencyValues(df10M: seq<Record>, p: string, baseline: real, hi: int): seq<real>
    requires PositiveTimes(df10M)
    decreases hi
  {
    if hi < 1 then []
    else
      match EfficiencyAt(df10M, p, baseline, hi)
      case None => EfficiencyValues(df10M, p, baseline, hi - 1)
      case Some(e) => EfficiencyValues(df10M, p, baseline, hi - 1) + [e]
  }

  /** EfficiencyValues holds one efficiency per present thread count, in the same order. */
  lemma {:induction false} EfficiencyValuesAt(df10M: seq<Record>, p: string, baseline: real, hi: int)
    requires PositiveTimes(df10M)
    ensures |EfficiencyValues(df10M, p, baseline, hi)| == |PresentThreads(df10M, p, hi)|
    ensures forall k :: 0 <= k < |PresentThreads(df10M, p, hi)| ==>
              EfficiencyAt(df10M, p, baseline, PresentThreads(df10M, p, hi)[k])
              == Some(EfficiencyValues(df10M, p, baseline, hi)[k])
    decreases hi
  {
    if hi >= 1 {
      EfficiencyValuesAt(df10M, p, baseline, hi - 1);
      PresentThreadsStep(df10M, p, hi);
      FirstTimePositive(df10M, RunOf(p, hi));
      var hs, es := PresentThreads(df10M, p, hi - 1), EfficiencyValues(df10M, p, baseline, hi - 1);
      forall k | 0 <= k < |PresentThreads(df10M, p, hi)|
        ensures EfficiencyAt(df10M, p, baseline, PresentThreads(df10M, p, hi)[k])
             == Some(EfficiencyValues(df10M, p, baseline, hi)[k])
      {
        if k < |hs| {
          assert PresentThreads(df10M, p, hi)[k] == hs[k];
          assert EfficiencyValues(df10M, p, baseline, hi)[k] == es[k];
        }
      }
    }
  }

  /**
   The loop of chart 4 for one program: for 1 .. 6 threads, the efficiency
   of the first matching row, for the same thread counts as the speedup.
   */
  method EfficiencySeries(df10M: seq<Record>, p: string, baseline: real) returns (threadCounts: seq<int>, efficiencies: seq<real>)
    requires PositiveTimes(df10M)
    ensures threadCounts == PresentThreads(df10M, p, MaxThreads)
    ensures |efficiencies| == |threadCounts|
    ensures forall k :: 0 <= k < |threadCounts| ==> EfficiencyAt(df10M, p, baseline, threadCounts[k]) == Some(efficiencies[k])
  {
    threadCounts, efficiencies := [], [];
    for h := 1 to MaxThreads + 1
      invariant threadCounts == PresentThreads(df10M, p, h - 1)
      invariant efficiencies == EfficiencyValues(df10M, p, baseline, h - 1)
    {
      PresentThreadsStep(df10M, p, h);
      var data := Where(df10M, RunOf(p, h));
      if data != [] {
        EfficiencyOfFirstRow(df10M, p, baseline, h);
        var time := data[0].seconds;
        var speedup := baseline / time;
        var efficiency := (speedup / h as real) * 100.0;
        efficiencies := efficiencies + [efficiency];
        threadCounts := threadCounts + [h];
      } else {
        assert EfficiencyAt(df10M, p, baseline, h).None?;
      }
    }
    EfficiencyValuesAt(df10M, p, baseline, MaxThreads);
  }

  // ---------------------------------------------------------------
  // Bar series (charts 3 and 5)
  // ---------------------------------------------------------------

  /**
   The loop of chart 3 for one program: one bar per distinct thread count
   of the ten-million subset, ascending; the time of the program's first
   row with that count, or 0 where it has none.
   */
  method BarSeries(df10M: seq<Record>, p: string) returns (threadValues: seq<int>, times: seq<real>)
    ensures StrictlyIncreasing(threadValues)
    ensures forall h :: h in threadValues <==> exists j :: 0 <= j < |df10M| && df10M[j].threads == h
    ensures |times| == |threadValues|
    ensures forall k :: 0 <= k < |threadValues| ==>
              match FirstTime(df10M, RunOf(p, threadValues[k]))
              case None => times[k] == 0.0
              case Some(t) => times[k] == t
  {
    threadValues := SortedDistinct(ThreadsOf(df10M));
    times := [];
    for i := 0 to |threadValues|
      invariant |times| == i
      invariant forall k :: 0 <= k < i ==>
                  match FirstTime(df10M, RunOf(p, threadValues[k]))
                  case None => times[k] == 0.0
                  case Some(t) => times[k] == t
    {
      var data := Where(df10M, RunOf(p, threadValues[i]));
      if data != [] {
        times := times + [data[0].seconds];
      } else {
        times := times + [0.0];
      }
    }
  }

  /** The height of one overhead bar: the group's mean in microseconds, or 0. */
  function OverheadBar(df: seq<Record>, p: string, v: int): real
  {
    var g := Where(df, RunAt(p, v));
    if g == [] then 0.0 else Mean(TimesOf(g)) * MicrosPerSecond
  }

  /** The bar heights for the keys vs, in order, as a loop appending f(v) per key builds them. */
  function Bars(f: int -> real, vs: seq<int>): seq<real>
  {
    if vs == [] then [] else Bars(f, vs[..|vs| - 1]) + [f(vs[|vs| - 1])]
  }

  /** Bar k is the height of key k. */
  lemma {:induction false} BarsAt(f: int -> real, vs: seq<int>)
    ensures |Bars(f, vs)| == |vs|
    ensures forall k :: 0 <= k < |vs| ==> Bars(f, vs)[k] == f(vs[k])
  {
    if vs != [] {
      var init := vs[..|vs| - 1];
      BarsAt(f, init);
      assert forall k :: 0 <= k < |init| ==> init[k] == vs[k];
    }
  }

  /** One more key, one more bar. */
  lemma BarsSnoc(f: int -> real, vs: seq<int>, i: int)
    requires 0 <= i < |vs|
    ensures Bars(f, vs[..i + 1]) == Bars(f, vs[..i]) + [f(vs[i])]
  {
    assert vs[..i + 1][..i] == vs[..i];
  }

  function OverheadBarOf(df: seq<Record>, p: string): int -> real
  {
    v => OverheadBar(df, p, v)
  }

  /**
   The x values of chart 5: the iteration counts of the low subset are
   exactly the counts up to LowIterationLimit that occur in the table.
   */
  lemma LowIterationValues(df: seq<Record>)
    ensures forall v :: v in IterationsOf(LowRows(df)) <==>
              v <= LowIterationLimit && exists j :: 0 <= j < |df| && df[j].iterations == v
  {
    var low := LowRows(df);
    assert forall j :: 0 <= j < |low| ==> low[j] in low;
    assert forall j :: 0 <= j < |df| && df[j].iterations <= LowIterationLimit ==> df[j] in low;
  }

  /**
   The bar of a low iteration count, computed on the low subset as chart
   5 does, is the bar of the whole group.
   */
  lemma LowGroupBar(df: seq<Record>, p: string, v: int)
    requires v <= LowIterationLimit
    ensures var data := Where(LowRows(df), RunAt(p, v));
            OverheadBar(df, p, v) == if data != [] then Mean(TimesOf(data)) * MicrosPerSecond else 0.0
  {
    WhereWhereEquiv(df, IsLow(), RunAt(p, v), RunAt(p, v));
  }

  /**
   The loop of chart 5 for one program: one bar per distinct iteration
   count up to LowIterationLimit in the whole table, ascending; the mean
   time in microseconds of all the program's rows with that count, over
   every thread count, or 0 where it has none.
   */
  method OverheadSeries(df: seq<Record>, p: string) returns (iterationValues: seq<int>, times: seq<real>)
    ensures StrictlyIncreasing(iterationValues)
    ensures forall v :: v in iterationValues <==>
              v <= LowIterationLimit && exists j :: 0 <= j < |df| && df[j].iterations == v
    ensures |times| == |iterationValues|
    ensures forall k :: 0 <= k < |iterationValues| ==>
              var g := Where(df, RunAt(p, iterationValues[k]));
              (g == [] ==> times[k] == 0.0) && (g != [] ==> times[k] == Mean(TimesOf(g)) * MicrosPerSecond)
  {
    var low := LowRows(df);
    iterationValues := SortedDistinct(IterationsOf(low));
    LowIterationValues(df);
    times := [];
    for i := 0 to |iterationValues|
      invariant times == Bars(OverheadBarOf(df, p), iterationValues[..i])
    {
      var v := iterationValues[i];
      assert v in iterationValues;
      LowGroupBar(df, p, v);
      var data := Where(low, RunAt(p, v));
      var bar: real;
      if data != [] {
        var meanTime := Mean(TimesOf(data));
        bar := meanTime * MicrosPerSecond;
      } else {
        bar := 0.0;
      }
      assert bar == OverheadBar(df, p, v);
      BarsSnoc(OverheadBarOf(df, p), iterationValues, i);
      times := times + [bar];
    }
    assert iterationValues[..|iterationValues|] == iterationValues;
    BarsAt(OverheadBarOf(df, p), iterationValues);
  }
}
