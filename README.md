# Pi benchmark: estimators and chart data, verified in Dafny

This project models two parts of a small benchmark of Pi estimators.

The first part is the estimators themselves. All of them sum the
Gregory-Leibniz series pi/4 = sum over i of (-1)^i / (2i + 1):

- a serial program;
- a threaded program whose threads add their partial sums into a shared
  total without synchronisation;
- a threaded program that adds the partial sums under a mutex.

The second part is the data reduction behind the benchmark charts. That
covers:

- the y-axis time unit;
- the mean time per iteration count;
- the serial baseline;
- the speedup and efficiency series;
- the zero-padded bar series;
- the low-iteration overhead series.

Sums and times are reals.

Modules:

- `PiSeries` (pi_series.dfy): the series as a specification.
  - `Power(i)` is (-1)^i.
  - `Term(i)` is term i.
  - `SeriesSum(lo, hi)` adds the terms in [lo, hi) from the lowest index
    up.
  - `Outcome` is how a program ends: a usage error with exit status 1, or
    an estimate with exit status 0.
- `PiSerial` (pi_serial.dfy): the serial loop and the serial program.
- `ThreadBlocks` (thread_blocks.dfy): how the threaded programs split the
  index range among `t` threads, and the per-thread summation loop
  `Thread_sum`.
  - Thread `rank` takes [rank * (n / t), rank * (n / t) + n / t).
  - The blocks are disjoint and consecutive.
  - Together they cover exactly the first t * (n / t) indices, so the
    last n % t terms are summed by no thread.
- `RealSums` (real_sums.dfy): sums and means of real sequences, and the
  proof that adding values in any order gives the same sum.
- `PiMutex` (pi_mutex.dfy): the mutex program.
  - The lock makes each addition atomic.
  - The order in which threads enter the critical section is a parameter:
    any permutation of the ranks.
  - The total is proved to be the serial sum of the covered prefix,
    whatever that order.
- `PiRace` (pi_race.dfy): the unsynchronised program.
  - Every thread's partial sum is modelled.
  - The total left behind by the racing additions is a parameter: the
    racy combine, whose result depends on how the threads' loads and
    stores interleave, is left out by choice.
  - The estimate is four times that total. When no update is lost, it is
    the serial sum of the covered prefix.
- `Tables` (tables.dfy): the results table as a sequence of `Record`s,
  plus the table operations the script relies on.
  - A boolean mask is `Where`. It keeps every accepted row as often as it
    occurs, in table order.
  - `values[0]` behind a `not data.empty` guard is `FirstTime`.
  - `sorted(col.unique())` is `SortedDistinct`.
  - `col.unique()` is `UniqueInOrder`.
- `Charts` (charts.dfy): the reduction of each chart block of
  `generar_graficos.py`, for one program at a time.
  - The four list-building loops are methods with loop invariants.
  - Each method is proved against specification functions (`SpeedupAt`,
    `EfficiencyAt`, `PresentThreads`, `FirstTime`) whose meaning is
    proved separately, and against the definition of `Mean`.

Two behaviours of the script shape the model:

- A zero time in the speedup division is divided by, not skipped. The
  speedup and efficiency functions require positive times
  (`PositiveTimes`).
- A missing serial baseline makes `values[0]` on an empty selection
  raise, and nothing after it runs. The model returns `None`.

## Model

| member | source | states |
|---|---|---|
| PiSeries.PowerParity | 05_pi_parallel_mutex.c:62-66 | (-1)^i is 1 for even i and -1 for odd i, which justifies choosing the initial factor by the parity of the first index |
| PiSeries.Denominator | 05_pi_parallel_mutex.c:69 | every denominator 2i + 1 is positive and odd |
| PiSeries.SeriesStep | 05_pi_parallel_mutex.c:68-71 | one loop step: adding factor / (2i + 1) with factor = (-1)^i extends the sum by term i, and the negated factor is (-1)^(i+1) |
| PiSerial.SerialSum | 01_pi_serial.c:15-24 | the loop leaves sum = the sum of the first n terms; it visits 0 .. n-1 once each in order; for n <= 0 it does nothing and sum stays 0 |
| PiSerial.RunSerial | 01_pi_serial.c:9-34 | a usage error, with exit status 1, exactly when argc != 2; otherwise exit status 0, the sum of the first n terms, and pi_approx = 4 * sum |
| ThreadBlocks.Covered | 05_pi_parallel_mutex.c:57-59 | the covered prefix t * (n / t) is at most n and falls short of n by exactly n % t |
| ThreadBlocks.BlocksConsecutive | 05_pi_parallel_mutex.c:57-59 | each block has n / t indices and ends where the next rank's block starts |
| ThreadBlocks.BlocksOrdered | 05_pi_parallel_mutex.c:57-59 | a lower rank's block ends no later than a higher rank's block starts |
| ThreadBlocks.BlocksDisjoint | 02_pi_parallel_race.c:53-55 | no index lies in the blocks of two different ranks |
| ThreadBlocks.BlocksCover | 05_pi_parallel_mutex.c:32-59 | an index lies in the block of some rank 0 .. t-1 if and only if it is in [0, t * (n / t)) |
| ThreadBlocks.ThreadSum | 05_pi_parallel_mutex.c:53-71 | the thread's loop runs exactly n / t times over its block in ascending order, and my_sum is the series sum over the block |
| ThreadBlocks.RunThreads | 02_pi_parallel_race.c:30-36 | every rank 0 .. t-1 leaves the sum of its own block |
| ThreadBlocks.PartialSumsPrefix | 05_pi_parallel_mutex.c:73-75 | the partial sums of ranks 0 .. k-1 add up to the first k * (n / t) terms |
| ThreadBlocks.PartialSumsTotal | 05_pi_parallel_mutex.c:73-75 | all partial sums together are the serial sum of the first t * (n / t) terms |
| ThreadBlocks.DroppedTail | 01_pi_serial.c:21-24 | the serial sum of n terms is the threads' total plus the uncovered tail; when t divides n the two are equal |
| RealSums.SumGatherPermutation | 05_pi_parallel_mutex.c:73-75 | adding the partial sums in any permutation of their indices gives the same total |
| PiMutex.RunMutex | 05_pi_parallel_mutex.c:17-51 | a usage error, with exit status 1, exactly when argc != 3; otherwise exit status 0 and, for any order of entering the critical section, sum = the serial sum of the first t * (n / t) terms and pi_approx = 4 * sum; with no threads, sum and pi_approx are 0 |
| PiRace.RunRace | 02_pi_parallel_race.c:16-47 | a usage error, with exit status 1, exactly when argc != 3; otherwise exit status 0, each thread's partial sum is the sum of its block of n / t terms, pi_approx = 4 * total, and the total is the serial prefix sum when no update is lost; with no threads, no partial sums and sum and pi_approx are 0 |
| Tables.WhereMembers | generar_graficos.py:93 | a boolean mask keeps exactly the rows of the table that satisfy the condition |
| Tables.WhereCounts | generar_graficos.py:93 | a boolean mask keeps each accepted row as many times as it occurs in the table, and no rejected row |
| Tables.WhereAppend | generar_graficos.py:93 | masking a table in two pieces and joining the results is masking the whole table, so the kept rows stay in table order |
| Tables.StrictlyIncreasingUnique | generar_graficos.py:60 | an ascending sequence without repeats, such as the keys of a groupby, is determined by its set of values |
| Tables.WhereWhereEquiv | generar_graficos.py:237 | filtering a filtered table equals filtering once by the conjunction |
| Tables.FirstTimeFirstMatch | generar_graficos.py:110-112 | the lookup finds nothing exactly when no row matches, and otherwise the time of the matching row with the lowest index |
| Tables.SortedDistinct | generar_graficos.py:142 | the result is strictly ascending and contains exactly the values of the column |
| Tables.UniqueInOrder | generar_graficos.py:58 | the result has no duplicates and contains exactly the values of the column |
| Charts.FormatTime | generar_graficos.py:17-26 | exactly one unit per value: seconds for value >= 1, ms for [0.001, 1), µs below; the scaled number, before the f-string rounds it to the decimals, is the value times the unit's factor; 1 decimal exactly in seconds, 2 exactly below one microsecond; for values in [0.000001, 1) there are no decimals and the scaled number lies in [1, 1000) |
| Charts.TenMillionRows | generar_graficos.py:93 | the rows with exactly ten million iterations, each as often as it occurs in the table |
| Charts.LowRows | generar_graficos.py:223 | the rows with at most 10000 iterations, each as often as it occurs in the table |
| Charts.ComparisonRows | generar_graficos.py:269 | the rows of the serial, inefficient busy-wait and mutex programs, each as often as it occurs in the table |
| Charts.GroupMean | generar_graficos.py:60 | for an iteration count the program has, the group is non-empty and the value is the mean time of all the program's rows with that count |
| Charts.MeanByIterations | generar_graficos.py:58-60 | keys strictly ascending; each of the program's iteration counts is a key; each value is the mean of its non-empty group; no rows gives an empty series |
| Charts.IterationCurves | generar_graficos.py:58-60 | one curve per program of the table, each program once, each curve its mean-by-iterations series |
| Charts.KeysPresent | generar_graficos.py:60 | the keys of a program's mean series are exactly the iteration counts of its rows |
| Charts.SumTimesPermutation | generar_graficos.py:60 | reordering a selection keeps its number of rows and its total time |
| Charts.GroupMeanPermutation | generar_graficos.py:60 | a group selected from a table and from any reordering of it has the same mean time |
| Charts.MeanByIterationsPermutation | generar_graficos.py:58-60 | reordering the rows of the table does not change any program's mean series |
| Charts.ComparisonKeepsMeans | generar_graficos.py:269-281 | for the serial, busy-wait and mutex programs the comparison subset yields the same mean series as the whole table |
| Charts.Baseline | generar_graficos.py:93-96 | None exactly when there is no serial ten-million row; otherwise the time of the first such row |
| Charts.SpeedupAt | generar_graficos.py:109-113 | None exactly when the program has no row for h threads; otherwise baseline / the time of the first matching row |
| Charts.EfficiencyUnclamped | generar_graficos.py:192-196 | efficiency exists exactly where speedup does; e * h = speedup * 100; e > 100 exactly for super-linear speedup and e = 100 exactly at linear speedup, so nothing is clamped |
| Charts.SpeedupOfBaselineTime | generar_graficos.py:110-113 | a run whose time equals the baseline has speedup 1 |
| Charts.PresentThreads | generar_graficos.py:109-115 | the thread counts in 1 .. hi with at least one row for the program, strictly ascending; missing counts are omitted |
| Charts.SpeedupSeries | generar_graficos.py:105-115 | the emitted thread counts are exactly the present ones in 1 .. 6, ascending, each with its speedup |
| Charts.EfficiencySeries | generar_graficos.py:187-198 | the emitted thread counts are the same as for speedup, each with its unclamped efficiency |
| Charts.BarSeries | generar_graficos.py:142-154 | one bar per distinct thread count of the ten-million subset, ascending: the first matching row's time, or 0 when the program has none |
| Charts.LowIterationValues | generar_graficos.py:223-227 | the x values of the overhead chart are exactly the iteration counts up to 10000 that occur in the table |
| Charts.LowGroupBar | generar_graficos.py:236-241 | the overhead bar computed on the low subset equals the bar of the whole group: mean time over all thread counts in microseconds, or 0 |
| Charts.OverheadSeries | generar_graficos.py:223-244 | one bar per distinct low iteration count, ascending: the mean time of all the program's rows with that count, over every thread count, times 1000000, or 0 when there is none |

## Left out

- Concurrency: thread creation and joining, and the mutex itself. The
  mutex program is modelled as independent block sums followed by one
  addition per thread, in a given order.
- The lost updates of the unsynchronised `sum += my_sum`: what they leave
  in the total is a parameter (`raced`) of `PiRace.RunRace`.
- Wall-clock timing (`clock_gettime`) and the elapsed-time arithmetic:
  they are I/O with no statable result.
- Process plumbing: `malloc`/`free`, `printf`, and argument parsing with
  `strtol`/`strtoll`. `n` and the thread count are inputs that are
  already parsed.
- IEEE-754 doubles: all sums and times are reals, so no bit-exact
  agreement between the serial and threaded sums is claimed.
- 64-bit integers: the overflow of `2 * i + 1` or `my_n * my_rank` for
  inputs near 2^63 is not modelled, because integers are unbounded.
- Negative n in the threaded programs. C's truncating n / t is then at
  most 0, so every block is empty and the total stays 0. The model
  requires n >= 0 there and does not cover that case; the serial program
  is modelled for every n. Zero or fewer threads is modelled: no thread is
  started, and the program prints 0 with status 0.
- Zero times: the speedup and efficiency functions require positive
  times, because the script divides by them unguarded.
- The outer loops over fixed program lists (generar_graficos.py:105,
  :141 and :147, :187, :228-229 and :234): every series is modelled for
  one program given as a parameter, and the lists themselves, including
  `02_pi_parallel_race` and `04_pi_parallel_busy_cs`, are not constants
  of the model.
- Plotting: CSV loading, every matplotlib call (style, axes, ticks,
  colours, legends, the reference lines, the hard-coded annotation), the
  name and colour tables, and `savefig`.
- String rendering of `format_time`: only the unit, the scaled number
  and the number of decimals are modelled, not the f-string text or the
  unit suffix. The rounding to those decimals is not modelled either, so
  the model does not show that, for example, 0.9996 s prints as 1000ms.
- The script's abort when the baseline is missing: modelled as `None`
  from `Charts.Baseline`.
- Tables.UniqueInOrder: the contract states distinctness and membership
  but not that programs keep their order of first appearance; that order
  holds by construction only.
- Charts.IterationCurves: for the same reason, the order of the curves
  is not stated.
