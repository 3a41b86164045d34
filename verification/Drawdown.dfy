/** Equity-curve statistics: drawdown, losing streaks, and the monthly breakdown. */
module Drawdown {
  import opened Foundations
  import opened Sorting

  /** The cumulative curve. */
  function Cumulative(rs: seq<real>): (c: seq<real>)
    ensures |c| == |rs| && forall k :: 0 <= k < |c| ==> c[k] == Total(rs, k + 1)
  {
    seq(|rs|, k requires 0 <= k < |rs| => Total(rs, k + 1))
  }

  // ---- maximum drawdown -----------------------------------------------------------------------

  /** `d` is the largest fall from an earlier (or the same) point to a later one; zero for no points. */
  ghost predicate IsMaxDrawdown(curve: seq<real>, d: real) {
    && (forall i, j :: 0 <= i <= j < |curve| ==> curve[i] - curve[j] <= d)
    && (if curve == [] then d == 0.0 else exists i, j :: 0 <= i <= j < |curve| && curve[i] - curve[j] == d)
  }

  lemma DrawdownUnique(curve: seq<real>, d: real, e: real)
    requires IsMaxDrawdown(curve, d) && IsMaxDrawdown(curve, e)
    ensures d == e
  {
  }

  /** `_max_drawdown`: one pass with a running peak. */
  method MaxDrawdown(curve: seq<real>) returns (d: real)
    ensures IsMaxDrawdown(curve, d) && d >= 0.0
  {
    if |curve| == 0 {
      return 0.0;
    }
    var peak, worst := curve[0], 0.0;
    ghost var top, from, to := 0, 0, 0;
    for k := 0 to |curve|
      invariant 0 <= top < |curve| && peak == curve[top] && top <= k && (k > 0 ==> top < k)
      invariant forall i :: 0 <= i < k ==> curve[i] <= peak
      invariant 0 <= from <= to < |curve| && worst == curve[to] - curve[from] && worst <= 0.0
      invariant forall i, j :: 0 <= i <= j < k ==> worst <= curve[j] - curve[i]
    {
      var v := curve[k];
      if v > peak {
        peak, top := v, k;
      }
      if v - peak < worst {
        worst, from, to := v - peak, top, k;
      }
    }
    assert curve[from] - curve[to] == -worst;
    d := -worst;
  }

  // ---- a stretch of the curve -------------------------------------------------------------------

  /** A stretch sums to the difference of two totals; its curve is the whole curve, shifted. */
  lemma {:induction false} StretchTotal(rs: seq<real>, a: nat, b: nat, k: nat)
    requires a <= b <= |rs| && k <= b - a
    ensures Total(rs[a..b], k) == Total(rs, a + k) - Total(rs, a)
  {
    if k > 0 {
      StretchTotal(rs, a, b, k - 1);
    }
  }

  /** No stretch of the results has a deeper drawdown than the whole. */
  lemma StretchDrawdown(rs: seq<real>, a: nat, b: nat, whole: real, stretch: real)
    requires a <= b <= |rs|
    requires IsMaxDrawdown(Cumulative(rs), whole) && IsMaxDrawdown(Cumulative(rs[a..b]), stretch)
    ensures stretch <= whole
  {
    var curve := Cumulative(rs[a..b]);
    assert rs != [] ==> Cumulative(rs)[0] - Cumulative(rs)[0] <= whole;
    if curve != [] {
      var i, j :| 0 <= i <= j < |curve| && curve[i] - curve[j] == stretch;
      StretchTotal(rs, a, b, i + 1);
      StretchTotal(rs, a, b, j + 1);
      assert Cumulative(rs)[a + i] - Cumulative(rs)[a + j] <= whole;
    }
  }

  // ---- losing streaks -----------------------------------------------------------------------------

  /** Rows `[a, b)` are all stop-losses. */
  predicate LosingRun(losses: seq<bool>, a: int, b: int) {
    0 <= a <= b <= |losses| && forall k :: a <= k < b ==> losses[k]
  }

  /** `_max_consecutive_sl`: the length of the longest losing run. */
  method MaxConsecutive(losses: seq<bool>) returns (best: nat)
    ensures forall a, b :: LosingRun(losses, a, b) ==> b - a <= best
    ensures exists a, b :: LosingRun(losses, a, b) && b - a == best
  {
    best := 0;
    var cur := 0;
    ghost var from, to: int := 0, 0;
    for i := 0 to |losses|
      invariant cur <= i && LosingRun(losses, i - cur, i)
      invariant i - cur > 0 ==> !losses[i - cur - 1]
      invariant LosingRun(losses, from, to) && to <= i && to - from == best && cur <= best
      invariant forall a, b :: LosingRun(losses, a, b) && b <= i ==> b - a <= best
    {
      assert i - cur > 0 ==> !losses[i - cur - 1];
      if losses[i] {
        cur := cur + 1;
        if cur > best {
          best, from, to := cur, i + 1 - cur, i + 1;
        }
      } else {
        cur := 0;
      }
    }
  }

  // ---- the monthly table ----------------------------------------------------------------------------

  /** A backtest row: its month as a number that grows with time, and its strict R. */
  datatype Row = Row(month: int, r: real)

  datatype Line = Line(month: int, setups: nat, total: real, cumulative: real, drawdown: real)

  function Results(rows: seq<Row>): (rs: seq<real>)
    ensures |rs| == |rows| && forall k :: 0 <= k < |rs| ==> rs[k] == rows[k].r
  {
    seq(|rows|, k requires 0 <= k < |rows| => rows[k].r)
  }

  /** Rows sorted by time have their months in order. */
  ghost predicate Chronological(rows: seq<Row>) {
    forall i, j :: 0 <= i <= j < |rows| ==> rows[i].month <= rows[j].month
  }

  /** The groups so far: month `keys[k]` holds the rows from `cuts[k]` up to `cuts[k + 1]`. */
  ghost predicate Groups(rows: seq<Row>, n: nat, keys: seq<int>, byMonth: map<int, seq<real>>, cuts: seq<nat>) {
    && n <= |rows| && |cuts| == |keys| + 1 && cuts[0] == 0 && cuts[|keys|] == n
    && (forall k :: 0 <= k < |keys| ==> Group(rows, n, keys[k], byMonth, cuts[k], cuts[k + 1]))
    && (forall j, k :: 0 <= j < k < |keys| ==> keys[j] < keys[k])
    && (forall m :: m in byMonth <==> m in keys)
  }

  ghost predicate Group(rows: seq<Row>, n: nat, m: int, byMonth: map<int, seq<real>>, a: nat, b: nat) {
    && a < b <= n <= |rows| && m in byMonth && byMonth[m] == Results(rows)[a..b]
    && forall i :: a <= i < b ==> rows[i].month == m
  }

  lemma GroupsGrow(rows: seq<Row>, n: nat, keys: seq<int>, byMonth: map<int, seq<real>>, cuts: seq<nat>)
    requires Groups(rows, n, keys, byMonth, cuts) && n < |rows| && keys != [] && rows[n].month == keys[|keys| - 1]
    ensures var m := rows[n].month;
            m in byMonth && Groups(rows, n + 1, keys, byMonth[m := byMonth[m] + [rows[n].r]], cuts[|keys| := n + 1])
  {
    var last, m := |keys| - 1, rows[n].month;
    assert Group(rows, n, keys[last], byMonth, cuts[last], cuts[last + 1]);
    var byMonth', cuts' := byMonth[m := byMonth[m] + [rows[n].r]], cuts[|keys| := n + 1];
    assert Results(rows)[cuts[last]..n + 1] == Results(rows)[cuts[last]..n] + [rows[n].r];
    forall k | 0 <= k < |keys| ensures Group(rows, n + 1, keys[k], byMonth', cuts'[k], cuts'[k + 1]) {
      assert Group(rows, n, keys[k], byMonth, cuts[k], cuts[k + 1]);
    }
  }

  lemma GroupsStart(rows: seq<Row>, n: nat, keys: seq<int>, byMonth: map<int, seq<real>>, cuts: seq<nat>)
    requires Groups(rows, n, keys, byMonth, cuts) && n < |rows| && Chronological(rows)
    requires keys == [] || rows[n].month != keys[|keys| - 1]
    ensures var m := rows[n].month;
            m !in byMonth && Groups(rows, n + 1, keys + [m], byMonth[m := [rows[n].r]], cuts + [n + 1])
  {
    var m := rows[n].month;
    forall k | 0 <= k < |keys| ensures keys[k] < m {
      var last := |keys| - 1;
      assert Group(rows, n, keys[last], byMonth, cuts[last], cuts[last + 1]);
      assert rows[cuts[last]].month == keys[last];
    }
    assert m !in keys;
    var keys', byMonth', cuts' := keys + [m], byMonth[m := [rows[n].r]], cuts + [n + 1];
    assert Results(rows)[n..n + 1] == [rows[n].r];
    forall k | 0 <= k < |keys'| ensures Group(rows, n + 1, keys'[k], byMonth', cuts'[k], cuts'[k + 1]) {
      if k < |keys| {
        assert Group(rows, n, keys[k], byMonth, cuts[k], cuts[k + 1]);
      }
    }
  }

  /** `by_month[m].append(r)`, the months in order of first appearance. */
  method GroupByMonth(rows: seq<Row>) returns (keys: seq<int>, byMonth: map<int, seq<real>>, ghost cuts: seq<nat>)
    requires Chronological(rows)
    ensures Groups(rows, |rows|, keys, byMonth, cuts)
  {
    keys, byMonth, cuts := [], map[], [0];
    for i := 0 to |rows|
      invariant Groups(rows, i, keys, byMonth, cuts)
    {
      var m := rows[i].month;
      if m in byMonth {
        assert keys != [];
        if m != keys[|keys| - 1] {
          GroupsStart(rows, i, keys, byMonth, cuts);
        }
        GroupsGrow(rows, i, keys, byMonth, cuts);
        byMonth, cuts := byMonth[m := byMonth[m] + [rows[i].r]], cuts[|keys| := i + 1];
      } else {
        if keys != [] {
          assert keys[|keys| - 1] in keys;
        }
        GroupsStart(rows, i, keys, byMonth, cuts);
        keys, byMonth, cuts := keys + [m], byMonth[m := [rows[i].r]], cuts + [i + 1];
      }
    }
  }

  /** One line of the table. */
  method MonthLine(rows: seq<Row>, m: int, byMonth: map<int, seq<real>>, before: real, ghost a: nat, ghost b: nat)
    returns (line: Line)
    requires Group(rows, |rows|, m, byMonth, a, b) && before == Total(Results(rows), a)
    ensures LineOk(rows, line, a, b)
  {
    var bucket := byMonth[m];
    var total := Sum(bucket);
    StretchTotal(Results(rows), a, b, |bucket|);
    var dd := MaxDrawdown(Cumulative(bucket));
    line := Line(m, |bucket|, total, before + total, dd);
  }

  /**
    The monthly table: consecutive stretches of the rows, one per month.  Each line's cumulative
    total counts all rows up to its end.
  */
  method MonthlyBreakdown(rows: seq<Row>) returns (lines: seq<Line>)
    requires Chronological(rows)
    ensures exists cuts :: Table(rows, lines, cuts)
  {
    var keys, byMonth;
    ghost var cuts;
    keys, byMonth, cuts := GroupByMonth(rows);
    SortedIsFixed(keys, (m: int) => m as real);
    var months := StableSort(keys, (m: int) => m as real);
    lines := [];
    var cum := 0.0;
    for k := 0 to |months|
      invariant |lines| == k && months == keys
      invariant forall j :: 0 <= j < k ==> LineOk(rows, lines[j], cuts[j], cuts[j + 1])
      invariant cuts[k] <= |rows| && cum == Total(Results(rows), cuts[k])
    {
      assert Group(rows, |rows|, keys[k], byMonth, cuts[k], cuts[k + 1]);
      var line := MonthLine(rows, months[k], byMonth, cum, cuts[k], cuts[k + 1]);
      lines, cum := lines + [line], line.cumulative;
    }
    assert Table(rows, lines, cuts);
  }

  ghost predicate Table(rows: seq<Row>, lines: seq<Line>, cuts: seq<nat>) {
    && |cuts| == |lines| + 1 && cuts[0] == 0 && cuts[|lines|] == |rows|
    && forall k :: 0 <= k < |lines| ==> LineOk(rows, lines[k], cuts[k], cuts[k + 1])
  }

  function MonthTotals(lines: seq<Line>): (rs: seq<real>)
    ensures |rs| == |lines| && forall k :: 0 <= k < |rs| ==> rs[k] == lines[k].total
  {
    seq(|lines|, k requires 0 <= k < |lines| => lines[k].total)
  }

  lemma {:induction false} MonthTotalsAddUp(rows: seq<Row>, lines: seq<Line>, cuts: seq<nat>, k: nat)
    requires Table(rows, lines, cuts) && k <= |lines|
    ensures cuts[k] <= |rows| && Total(MonthTotals(lines), k) == Total(Results(rows), cuts[k])
  {
    if k > 0 {
      MonthTotalsAddUp(rows, lines, cuts, k - 1);
      assert LineOk(rows, lines[k - 1], cuts[k - 1], cuts[k]);
      StretchTotal(Results(rows), cuts[k - 1], cuts[k], cuts[k] - cuts[k - 1]);
      assert Total(MonthTotals(lines), k) == Total(MonthTotals(lines), k - 1) + lines[k - 1].total;
    }
  }

  /** Monthly totals sum to the overall total, and no month has a deeper drawdown than the whole period. */
  lemma MonthsAgainstTheWhole(rows: seq<Row>, lines: seq<Line>, cuts: seq<nat>, whole: real)
    requires Table(rows, lines, cuts) && IsMaxDrawdown(Cumulative(Results(rows)), whole)
    ensures Sum(MonthTotals(lines)) == Sum(Results(rows))
    ensures forall k :: 0 <= k < |lines| ==> lines[k].drawdown <= whole
  {
    MonthTotalsAddUp(rows, lines, cuts, |lines|);
    forall k | 0 <= k < |lines| ensures lines[k].drawdown <= whole {
      assert LineOk(rows, lines[k], cuts[k], cuts[k + 1]);
      StretchDrawdown(Results(rows), cuts[k], cuts[k + 1], whole, lines[k].drawdown);
    }
  }

  /** A line reports exactly the rows from `a` up to `b`, all of its month. */
  ghost predicate LineOk(rows: seq<Row>, line: Line, a: nat, b: nat) {
    && a < b <= |rows| && (forall i :: a <= i < b ==> rows[i].month == line.month)
    && line.setups == b - a && line.total == Sum(Results(rows)[a..b])
    && line.cumulative == Total(Results(rows), b)
    && IsMaxDrawdown(Cumulative(Results(rows)[a..b]), line.drawdown)
  }
}
