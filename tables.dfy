/**
 The benchmark results table and the table operations the chart script
 relies on: row filtering, the first matching row, the sorted distinct
 values of a column, and the distinct values in order of appearance.
 */
module Tables {

  /** One row of the results table: `programa`, `iteraciones`, `hilos`, `tiempo_segundos`. */
  datatype Record = Record(program: string, iterations: int, threads: int, seconds: real)

  datatype Option<T> = None | Some(value: T)

  /** Every row has a positive time, so that a time can be divided by. */
  predicate PositiveTimes(rows: seq<Record>)
  {
    forall j :: 0 <= j < |rows| ==> rows[j].seconds > 0.0
  }

  /** The rows that `keep` accepts, in their original order (a boolean mask). */
  function Where(rows: seq<Record>, keep: Record -> bool): (r: seq<Record>)
    ensures |r| <= |rows|
  {
    if rows == [] then []
    else if keep(rows[0]) then [rows[0]] + Where(rows[1..], keep)
    else Where(rows[1..], keep)
  }

  /** A row is kept exactly when it is in the table and the filter accepts it. */
  lemma {:induction false} WhereMembers(rows: seq<Record>, keep: Record -> bool)
    ensures forall x :: x in Where(rows, keep) <==> x in rows && keep(x)
  {
    if rows != [] {
      WhereMembers(rows[1..], keep);
      assert rows == [rows[0]] + rows[1..];
    }
  }

  /** An accepted row is kept as often as it occurs in the table, a rejected one never. */
  lemma {:induction false} WhereCounts(rows: seq<Record>, keep: Record -> bool)
    ensures forall x :: multiset(Where(rows, keep))[x] == if keep(x) then multiset(rows)[x] else 0
  {
    if rows != [] {
      WhereCounts(rows[1..], keep);
      assert rows == [rows[0]] + rows[1..];
      assert multiset(rows) == multiset{rows[0]} + multiset(rows[1..]);
    }
  }

  /**
   Filtering a table in two pieces and joining the results is filtering
   the whole table: the kept rows stay in table order.
   */
  lemma {:induction false} WhereAppend(a: seq<Record>, b: seq<Record>, keep: Record -> bool)
    ensures Where(a + b, keep) == Where(a, keep) + Where(b, keep)
  {
    if a == [] {
      assert a + b == b;
    } else {
      var ab := a + b;
      assert ab != [] && ab[0] == a[0] && ab[1..] == a[1..] + b;
      WhereAppend(a[1..], b, keep);
      var rest := Where(a[1..], keep) + Where(b, keep);
      if keep(a[0]) {
        assert Where(ab, keep) == [a[0]] + rest;
        assert Where(a, keep) == [a[0]] + Where(a[1..], keep);
        assert [a[0]] + rest == ([a[0]] + Where(a[1..], keep)) + Where(b, keep);
      } else {
        assert Where(ab, keep) == rest;
        assert Where(a, keep) == Where(a[1..], keep);
      }
    }
  }

  /** The first row a filter keeps is the first row of the table it accepts. */
  lemma {:induction false} WhereHead(rows: seq<Record>, keep: Record -> bool)
    requires Where(rows, keep) != []
    ensures exists j ::
              && 0 <= j < |rows| && rows[j] == Where(rows, keep)[0] && keep(rows[j])
              && forall i :: 0 <= i < j ==> !keep(rows[i])
  {
    if !keep(rows[0]) {
      WhereHead(rows[1..], keep);
      var j :|
        && 0 <= j < |rows[1..]| && rows[1..][j] == Where(rows[1..], keep)[0] && keep(rows[1..][j])
        && forall i :: 0 <= i < j ==> !keep(rows[1..][i]);
      assert rows[j + 1] == rows[1..][j];
      assert forall i :: 0 < i <= j ==> rows[i] == rows[1..][i - 1];
    } else {
      assert rows[0] == Where(rows, keep)[0];
    }
  }

  /** Filtering twice is filtering once by a condition equivalent to both. */
  lemma {:induction false} WhereWhereEquiv(rows: seq<Record>, p: Record -> bool, q: Record -> bool, pq: Record -> bool)
    requires forall x :: pq(x) == (p(x) && q(x))
    ensures Where(Where(rows, p), q) == Where(rows, pq)
  {
    if rows != [] {
      WhereWhereEquiv(rows[1..], p, q, pq);
    }
  }

  /**
   `data['tiempo_segundos'].values[0]` guarded by `not data.empty`: the
   time of the first accepted row, or None when no row is accepted.
   */
  function FirstTime(rows: seq<Record>, keep: Record -> bool): Option<real>
  {
    var data := Where(rows, keep);
    if data == [] then None else Some(data[0].seconds)
  }

  /**
   FirstTime finds nothing exactly when no row is accepted, and otherwise
   the time of the accepted row with the lowest index.
   */
  lemma FirstTimeFirstMatch(rows: seq<Record>, keep: Record -> bool)
    ensures FirstTime(rows, keep).None? <==> forall j :: 0 <= j < |rows| ==> !keep(rows[j])
    ensures FirstTime(rows, keep).Some? ==> exists j ::
              && 0 <= j < |rows| && keep(rows[j]) && rows[j].seconds == FirstTime(rows, keep).value
              && forall i :: 0 <= i < j ==> !keep(rows[i])
  {
    WhereMembers(rows, keep);
    if Where(rows, keep) == [] {
      assert forall j :: 0 <= j < |rows| ==> rows[j] in rows;
    } else {
      WhereHead(rows, keep);
    }
  }

  /** In a table of positive times, the time found is positive. */
  lemma FirstTimePositive(rows: seq<Record>, keep: Record -> bool)
    requires PositiveTimes(rows)
    ensures FirstTime(rows, keep).Some? ==> FirstTime(rows, keep).value > 0.0
  {
    if Where(rows, keep) != [] {
      WhereMembers(rows, keep);
      assert Where(rows, keep)[0] in rows;
    }
  }

  /** The `tiempo_segundos` column. */
  function TimesOf(rows: seq<Record>): (ts: seq<real>)
    ensures |ts| == |rows| && forall j :: 0 <= j < |rows| ==> ts[j] == rows[j].seconds
  {
    seq(|rows|, j requires 0 <= j < |rows| => rows[j].seconds)
  }

  /** The `iteraciones` column. */
  function IterationsOf(rows: seq<Record>): (vs: seq<int>)
    ensures |vs| == |rows| && forall j :: 0 <= j < |rows| ==> vs[j] == rows[j].iterations
  {
    seq(|rows|, j requires 0 <= j < |rows| => rows[j].iterations)
  }

  /** The `hilos` column. */
  function ThreadsOf(rows: seq<Record>): (vs: seq<int>)
    ensures |vs| == |rows| && forall j :: 0 <= j < |rows| ==> vs[j] == rows[j].threads
  {
    seq(|rows|, j requires 0 <= j < |rows| => rows[j].threads)
  }

  /** The `programa` column. */
  function ProgramsOf(rows: seq<Record>): (vs: seq<string>)
    ensures |vs| == |rows| && forall j :: 0 <= j < |rows| ==> vs[j] == rows[j].program
  {
    seq(|rows|, j requires 0 <= j < |rows| => rows[j].program)
  }

  predicate StrictlyIncreasing(s: seq<int>)
  {
    forall i, j :: 0 <= i < j < |s| ==> s[i] < s[j]
  }

  /** The values after the first element of an ascending sequence are the ones above it. */
  lemma TailValues(a: seq<int>)
    requires StrictlyIncreasing(a) && a != []
    ensures forall v :: v in a[1..] <==> v in a && v > a[0]
  {
    forall v | v in a && v > a[0] ensures v in a[1..] {
      var i :| 0 <= i < |a| && a[i] == v;
      assert a[1..][i - 1] == v;
    }
  }

  /** An ascending sequence without repeats is determined by its values. */
  lemma {:induction false} StrictlyIncreasingUnique(a: seq<int>, b: seq<int>)
    requires StrictlyIncreasing(a) && StrictlyIncreasing(b)
    requires forall v :: v in a <==> v in b
    ensures a == b
    decreases |a|
  {
    if a != [] {
      assert a[0] in a && b != [];
    }
    if b != [] {
      assert b[0] in b && a != [];
    }
    if a != [] {
      assert a[0] in b && b[0] in a;
      assert a[0] == b[0];
      TailValues(a);
      TailValues(b);
      StrictlyIncreasingUnique(a[1..], b[1..]);
      assert a == [a[0]] + a[1..] && b == [b[0]] + b[1..];
    }
  }

  /** Put x into its place in an ascending sequence, unless it is already there. */
  function Insert(x: int, s: seq<int>): (r: seq<int>)
    requires StrictlyIncreasing(s)
    ensures StrictlyIncreasing(r)
    ensures forall v :: v in r <==> v == x || v in s
  {
    if s == [] then [x]
    else if x < s[0] then
      ConsIncreasing(x, s);
      [x] + s
    else if x == s[0] then s
    else
      var tail := Insert(x, s[1..]);
      assert forall v :: v in s[1..] ==> s[0] < v;
      ConsIncreasing(s[0], tail);
      [s[0]] + tail
  }

  /** A value below the first element of an ascending sequence can go in front. */
  lemma ConsIncreasing(a: int, s: seq<int>)
    requires StrictlyIncreasing(s)
    requires s != [] ==> a < s[0]
    ensures StrictlyIncreasing([a] + s)
  {
  }

  /**
   `sorted(column.unique())`, and the key order of `groupby`: every value
   of the column exactly once, in ascending order.
   */
  function SortedDistinct(xs: seq<int>): (r: seq<int>)
    ensures StrictlyIncreasing(r)
    ensures forall v :: v in r <==> v in xs
  {
    if xs == [] then []
    else
      var last := |xs| - 1;
      assert xs == xs[..last] + [xs[last]];
      Insert(xs[last], SortedDistinct(xs[..last]))
  }

  predicate NoDuplicates<T(==)>(s: seq<T>)
  {
    forall i, j :: 0 <= i < j < |s| ==> s[i] != s[j]
  }

  /** `column.unique()`: every value once, in order of first appearance. */
  function UniqueInOrder(xs: seq<string>): (u: seq<string>)
    ensures NoDuplicates(u)
    ensures forall v :: v in u <==> v in xs
  {
    if xs == [] then []
    else
      var last := |xs| - 1;
      assert xs == xs[..last] + [xs[last]];
      var seen := UniqueInOrder(xs[..last]);
      if xs[last] in seen then seen else seen + [xs[last]]
  }
}
