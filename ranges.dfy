/**
 * The range computations of ChartData.cpp: the per-axis minimum and maximum
 * (`computeAxisRanges`) and the single global pair that `setData` computes in
 * autoscale mode. A running bound that has seen no number yet is `None`,
 * where the source uses the sentinels 1e300 and -1e300.
 */
module Ranges {
  import opened Wrappers
  import opened Datasets

  /** `qMin` of a running minimum and a number. */
  function Lower(acc: Option<real>, x: real): (r: Option<real>)
    ensures r.Some? && r.value <= x
    ensures acc.Some? ==> r.value <= acc.value
    ensures r.value == x || r == acc
  {
    match acc
    case None => Some(x)
    case Some(a) => Some(if a < x then a else x)
  }

  /** `qMax` of a running maximum and a number. */
  function Higher(acc: Option<real>, x: real): (r: Option<real>)
    ensures r.Some? && x <= r.value
    ensures acc.Some? ==> acc.value <= r.value
    ensures r.value == x || r == acc
  {
    match acc
    case None => Some(x)
    case Some(a) => Some(if a < x then x else a)
  }

  /** One step of the minimum fold: a non-number is skipped. */
  function FoldMin(acc: Option<real>, v: Value): Option<real> {
    if v.Some? then Lower(acc, v.value) else acc
  }

  function FoldMax(acc: Option<real>, v: Value): Option<real> {
    if v.Some? then Higher(acc, v.value) else acc
  }

  /** The smallest number among `vs`, or `None` when there is none. */
  function Low(vs: seq<Value>): Option<real>
    decreases |vs|
  {
    if vs == [] then None else FoldMin(Low(vs[..|vs| - 1]), vs[|vs| - 1])
  }

  /** The largest number among `vs`, or `None` when there is none. */
  function High(vs: seq<Value>): Option<real>
    decreases |vs|
  {
    if vs == [] then None else FoldMax(High(vs[..|vs| - 1]), vs[|vs| - 1])
  }

  predicate NoNumber(vs: seq<Value>) {
    forall j :: 0 <= j < |vs| ==> vs[j].None?
  }

  predicate IsLeast(m: real, vs: seq<Value>) {
    && (exists j :: 0 <= j < |vs| && vs[j] == Some(m))
    && (forall j :: 0 <= j < |vs| && vs[j].Some? ==> m <= vs[j].value)
  }

  predicate IsGreatest(m: real, vs: seq<Value>) {
    && (exists j :: 0 <= j < |vs| && vs[j] == Some(m))
    && (forall j :: 0 <= j < |vs| && vs[j].Some? ==> vs[j].value <= m)
  }

  /** The set of numbers among `vs`. */
  function Numbers(vs: seq<Value>): set<real> {
    set j | 0 <= j < |vs| && vs[j].Some? :: vs[j].value
  }

  lemma LowSnoc(vs: seq<Value>, v: Value)
    ensures Low(vs + [v]) == FoldMin(Low(vs), v)
    ensures High(vs + [v]) == FoldMax(High(vs), v)
  {
    assert (vs + [v])[..|vs|] == vs;
  }

  /** The minimum fold finds the least number, and finds nothing exactly when there is no number. */
  lemma {:induction false} LowIsLeast(vs: seq<Value>)
    ensures Low(vs).None? <==> NoNumber(vs)
    ensures Low(vs).Some? ==> IsLeast(Low(vs).value, vs)
    decreases |vs|
  {
    if vs != [] {
      var n := |vs| - 1;
      LowIsLeast(vs[..n]);
      assert forall j :: 0 <= j < n ==> vs[..n][j] == vs[j];
      if vs[n].Some? && Low(vs[..n]).Some? && Low(vs).value != vs[n].value {
        var j :| 0 <= j < n && vs[..n][j] == Some(Low(vs[..n]).value);
        assert vs[j] == Some(Low(vs).value);
      }
    }
  }

  /** The maximum fold finds the greatest number, and finds nothing exactly when there is no number. */
  lemma {:induction false} HighIsGreatest(vs: seq<Value>)
    ensures High(vs).None? <==> NoNumber(vs)
    ensures High(vs).Some? ==> IsGreatest(High(vs).value, vs)
    decreases |vs|
  {
    if vs != [] {
      var n := |vs| - 1;
      HighIsGreatest(vs[..n]);
      assert forall j :: 0 <= j < n ==> vs[..n][j] == vs[j];
      if vs[n].Some? && High(vs[..n]).Some? && High(vs).value != vs[n].value {
        var j :| 0 <= j < n && vs[..n][j] == Some(High(vs[..n]).value);
        assert vs[j] == Some(High(vs).value);
      }
    }
  }

  /** The folds depend only on which numbers occur, not on their order or repetition. */
  lemma FoldsDependOnlyOnNumbers(vs: seq<Value>, ws: seq<Value>)
    requires Numbers(vs) == Numbers(ws)
    ensures Low(vs) == Low(ws) && High(vs) == High(ws)
  {
    LowIsLeast(vs); LowIsLeast(ws);
    HighIsGreatest(vs); HighIsGreatest(ws);
    assert NoNumber(vs) <==> Numbers(vs) == {} by {
      if !NoNumber(vs) {
        var j :| 0 <= j < |vs| && vs[j].Some?;
        assert vs[j].value in Numbers(vs);
      }
    }
    assert NoNumber(ws) <==> Numbers(ws) == {} by {
      if !NoNumber(ws) {
        var j :| 0 <= j < |ws| && ws[j].Some?;
        assert ws[j].value in Numbers(ws);
      }
    }
    if !NoNumber(vs) {
      var a, b := Low(vs).value, Low(ws).value;
      var ja :| 0 <= ja < |vs| && vs[ja] == Some(a);
      var jb :| 0 <= jb < |ws| && ws[jb] == Some(b);
      assert a in Numbers(ws);
      assert b in Numbers(vs);
      var c, d := High(vs).value, High(ws).value;
      var jc :| 0 <= jc < |vs| && vs[jc] == Some(c);
      var jd :| 0 <= jd < |ws| && ws[jd] == Some(d);
      assert c in Numbers(ws);
      assert d in Numbers(vs);
    }
  }

  /**
   * The repair of a folded range ("fix invalid ranges"): no number seen (or
   * an inverted pair) gives (0, 1); a zero-width range [a, a] becomes
   * (a, a + 1); any other pair is kept.
   */
  function Settle(lo: Option<real>, hi: Option<real>): (r: (real, real))
    ensures r.0 < r.1
    ensures lo.None? || hi.None? || lo.value > hi.value ==> r == (0.0, 1.0)
    ensures lo.Some? && hi.Some? && lo.value < hi.value ==> r == (lo.value, hi.value)
    ensures lo.Some? && hi.Some? && lo.value == hi.value ==> r == (lo.value, lo.value + 1.0)
  {
    var (a, b) := if lo.None? || hi.None? || lo.value > hi.value then (0.0, 1.0) else (lo.value, hi.value);
    if a == b then (a, a + 1.0) else (a, b)
  }

  /** The cells of every series on axis `i`, in series order. */
  function Column(ds: seq<Series>, i: nat): (col: seq<Value>)
    ensures |col| == |ds|
    ensures forall k :: 0 <= k < |ds| ==> col[k] == Cell(ds[k], i)
  {
    seq(|ds|, k requires 0 <= k < |ds| => Cell(ds[k], i))
  }

  /** The running minimum of axis `i` after scanning the series in order. */
  function AxisLow(ds: seq<Series>, i: nat): Option<real>
    decreases |ds|
  {
    if ds == [] then None else FoldMin(AxisLow(ds[..|ds| - 1], i), Cell(ds[|ds| - 1], i))
  }

  /** The running maximum of axis `i` after scanning the series in order. */
  function AxisHigh(ds: seq<Series>, i: nat): Option<real>
    decreases |ds|
  {
    if ds == [] then None else FoldMax(AxisHigh(ds[..|ds| - 1], i), Cell(ds[|ds| - 1], i))
  }

  /** Scanning the series is folding the column of the axis. */
  lemma {:induction false} AxisFoldIsColumnFold(ds: seq<Series>, i: nat)
    ensures AxisLow(ds, i) == Low(Column(ds, i)) && AxisHigh(ds, i) == High(Column(ds, i))
    decreases |ds|
  {
    if ds != [] {
      var n := |ds| - 1;
      AxisFoldIsColumnFold(ds[..n], i);
      assert Column(ds, i) == Column(ds[..n], i) + [Cell(ds[n], i)];
      LowSnoc(Column(ds[..n], i), Cell(ds[n], i));
    }
  }

  /** The (min, max) pair of axis `i`. */
  function AxisRange(ds: seq<Series>, i: nat): (real, real) {
    Settle(AxisLow(ds, i), AxisHigh(ds, i))
  }

  /** The minimum of each of the first `n` axes. */
  function AxisMins(n: nat, ds: seq<Series>): (r: seq<real>)
    ensures |r| == n
  {
    seq(n, i requires 0 <= i < n => AxisRange(ds, i).0)
  }

  /** The maximum of each of the first `n` axes. */
  function AxisMaxs(n: nat, ds: seq<Series>): (r: seq<real>)
    ensures |r| == n
  {
    seq(n, i requires 0 <= i < n => AxisRange(ds, i).1)
  }

  /** Every cell of every series, series after series. */
  function Flatten(ds: seq<Series>): seq<Value>
    decreases |ds|
  {
    if ds == [] then [] else Flatten(ds[..|ds| - 1]) + ds[|ds| - 1].data
  }

  /** The single (min, max) pair over every cell of every series, whatever its index. */
  function GlobalRange(ds: seq<Series>): (real, real) {
    Settle(Low(Flatten(ds)), High(Flatten(ds)))
  }

  /**
   * Each axis range is strict and contains every number on that axis; its
   * minimum is the least of them and its maximum the greatest, except that an
   * axis with a single distinct number v gets (v, v + 1) and an axis with no
   * number gets (0, 1).
   */
  lemma AxisRangeSpec(ds: seq<Series>, i: nat)
    ensures var r := AxisRange(ds, i);
      && r.0 < r.1
      && (forall k :: 0 <= k < |ds| && Cell(ds[k], i).Some? ==> r.0 <= Cell(ds[k], i).value <= r.1)
      && (NoNumber(Column(ds, i)) ==> r == (0.0, 1.0))
      && (!NoNumber(Column(ds, i)) ==>
            IsLeast(r.0, Column(ds, i))
            && (IsGreatest(r.1, Column(ds, i)) || (IsGreatest(r.0, Column(ds, i)) && r.1 == r.0 + 1.0)))
  {
    var col := Column(ds, i);
    AxisFoldIsColumnFold(ds, i);
    LowIsLeast(col);
    HighIsGreatest(col);
    if !NoNumber(col) {
      var j :| 0 <= j < |col| && col[j] == Some(Low(col).value);
      assert Low(col).value <= High(col).value;
    }
  }

  /** Reordering the series (any permutation) changes no axis range. */
  lemma AxisRangeIgnoresSeriesOrder(ds: seq<Series>, es: seq<Series>, i: nat)
    requires multiset(ds) == multiset(es)
    ensures AxisRange(ds, i) == AxisRange(es, i)
  {
    forall ds: seq<Series>, es: seq<Series> | multiset(ds) == multiset(es)
      ensures Numbers(Column(ds, i)) <= Numbers(Column(es, i))
    {
      forall x | x in Numbers(Column(ds, i)) ensures x in Numbers(Column(es, i)) {
        var k :| 0 <= k < |ds| && Column(ds, i)[k] == Some(x);
        assert ds[k] in multiset(es);
        var m :| 0 <= m < |es| && es[m] == ds[k];
        assert Column(es, i)[m] == Some(x);
      }
    }
    FoldsDependOnlyOnNumbers(Column(ds, i), Column(es, i));
    AxisFoldIsColumnFold(ds, i);
    AxisFoldIsColumnFold(es, i);
  }

  /** Cells at axis index N or beyond play no part in the first N ranges. */
  lemma AxisRangesIgnoreTrailingCells(n: nat, ds: seq<Series>, es: seq<Series>)
    requires |ds| == |es|
    requires forall k, i :: 0 <= k < |ds| && 0 <= i < n ==> Cell(ds[k], i) == Cell(es[k], i)
    ensures AxisMins(n, ds) == AxisMins(n, es) && AxisMaxs(n, ds) == AxisMaxs(n, es)
  {
    forall i | 0 <= i < n ensures AxisRange(ds, i) == AxisRange(es, i) {
      assert Column(ds, i) == Column(es, i);
      AxisFoldIsColumnFold(ds, i);
      AxisFoldIsColumnFold(es, i);
    }
  }

  lemma FlattenHolds(ds: seq<Series>, k: nat, j: nat)
    requires k < |ds| && j < |ds[k].data|
    ensures exists p :: 0 <= p < |Flatten(ds)| && Flatten(ds)[p] == ds[k].data[j]
    decreases |ds|
  {
    var n := |ds| - 1;
    var prev := Flatten(ds[..n]);
    if k == n {
      assert Flatten(ds)[|prev| + j] == ds[k].data[j];
    } else {
      FlattenHolds(ds[..n], k, j);
      var p :| 0 <= p < |prev| && prev[p] == ds[..n][k].data[j];
      assert Flatten(ds)[p] == ds[k].data[j];
    }
  }

  lemma FlattenFrom(ds: seq<Series>, p: nat)
    requires p < |Flatten(ds)|
    ensures exists k, j :: 0 <= k < |ds| && 0 <= j < |ds[k].data| && Flatten(ds)[p] == ds[k].data[j]
    decreases |ds|
  {
    var n := |ds| - 1;
    var prev := Flatten(ds[..n]);
    if p < |prev| {
      FlattenFrom(ds[..n], p);
      var k, j :| 0 <= k < n && 0 <= j < |ds[..n][k].data| && prev[p] == ds[..n][k].data[j];
      assert Flatten(ds)[p] == ds[k].data[j];
    } else {
      assert Flatten(ds)[p] == ds[n].data[p - |prev|];
    }
  }

  /**
   * The global range is strict and contains every number of every series at
   * every index (not only the first N); it is (0, 1) when there is no number,
   * and otherwise runs from the least number to the greatest (or to the least
   * plus one when all numbers are equal).
   */
  lemma GlobalRangeSpec(ds: seq<Series>)
    ensures var r := GlobalRange(ds);
      && r.0 < r.1
      && (forall k, j :: 0 <= k < |ds| && 0 <= j < |ds[k].data| && ds[k].data[j].Some? ==>
            r.0 <= ds[k].data[j].value <= r.1)
      && ((forall k, j :: 0 <= k < |ds| && 0 <= j < |ds[k].data| ==> ds[k].data[j].None?) ==> r == (0.0, 1.0))
      && (!NoNumber(Flatten(ds)) ==>
            IsLeast(r.0, Flatten(ds))
            && (IsGreatest(r.1, Flatten(ds)) || (IsGreatest(r.0, Flatten(ds)) && r.1 == r.0 + 1.0)))
  {
    var vs := Flatten(ds);
    LowIsLeast(vs);
    HighIsGreatest(vs);
    if !NoNumber(vs) {
      var j :| 0 <= j < |vs| && vs[j] == Some(Low(vs).value);
      assert Low(vs).value <= High(vs).value;
    }
    forall k, j | 0 <= k < |ds| && 0 <= j < |ds[k].data| && ds[k].data[j].Some?
      ensures GlobalRange(ds).0 <= ds[k].data[j].value <= GlobalRange(ds).1
    {
      FlattenHolds(ds, k, j);
    }
    if forall k, j :: 0 <= k < |ds| && 0 <= j < |ds[k].data| ==> ds[k].data[j].None? {
      forall p | 0 <= p < |vs| ensures vs[p].None? {
        FlattenFrom(ds, p);
      }
    }
  }

  /** Scanning one more series extends each axis fold by that series' cell. */
  lemma AxisFoldStep(ds: seq<Series>, k: nat, i: nat)
    requires k < |ds|
    ensures AxisLow(ds[..k + 1], i) == FoldMin(AxisLow(ds[..k], i), Cell(ds[k], i))
    ensures AxisHigh(ds[..k + 1], i) == FoldMax(AxisHigh(ds[..k], i), Cell(ds[k], i))
  {
    assert ds[..k + 1][..k] == ds[..k];
  }

  /** Folds the cells of series `k` into the running per-axis minima and maxima, in place. */
  method FoldSeriesAxes(amin: array<Option<real>>, amax: array<Option<real>>, ds: seq<Series>, k: nat)
    requires amin != amax && amin.Length == amax.Length && k < |ds|
    requires forall i :: 0 <= i < amin.Length ==> amin[i] == AxisLow(ds[..k], i) && amax[i] == AxisHigh(ds[..k], i)
    modifies amin, amax
    ensures forall i :: 0 <= i < amin.Length ==>
      amin[i] == AxisLow(ds[..k + 1], i) && amax[i] == AxisHigh(ds[..k + 1], i)
  {
    var vals := ds[k].data;
    for i := 0 to amin.Length
      invariant forall j :: 0 <= j < i ==> amin[j] == AxisLow(ds[..k + 1], j) && amax[j] == AxisHigh(ds[..k + 1], j)
      invariant forall j :: i <= j < amin.Length ==> amin[j] == AxisLow(ds[..k], j) && amax[j] == AxisHigh(ds[..k], j)
    {
      AxisFoldStep(ds, k, i);
      if i < |vals| {
        var v := vals[i];
        if v.Some? {
          amin[i] := Lower(amin[i], v.value);
          amax[i] := Higher(amax[i], v.value);
        }
      }
    }
  }

  /**
   * Per-axis minimum and maximum of the first |labels| cells of every series,
   * repaired so that every axis has min < max (ChartData.cpp, `computeAxisRanges`).
   */
  method ComputeAxisRanges(labels: seq<string>, ds: seq<Series>) returns (mins: seq<real>, maxs: seq<real>)
    ensures mins == AxisMins(|labels|, ds) && maxs == AxisMaxs(|labels|, ds)
  {
    var axes := |labels|;
    var amin := new Option<real>[axes](_ => None);
    var amax := new Option<real>[axes](_ => None);

    for k := 0 to |ds|
      invariant forall i :: 0 <= i < axes ==> amin[i] == AxisLow(ds[..k], i) && amax[i] == AxisHigh(ds[..k], i)
    {
      FoldSeriesAxes(amin, amax, ds, k);
    }
    assert ds[..|ds|] == ds;

    // fix invalid ranges
    for i := 0 to axes
      invariant forall j :: 0 <= j < i ==>
        amin[j] == Some(AxisRange(ds, j).0) && amax[j] == Some(AxisRange(ds, j).1)
      invariant forall j :: i <= j < axes ==> amin[j] == AxisLow(ds, j) && amax[j] == AxisHigh(ds, j)
    {
      var lo, hi := amin[i], amax[i];
      if lo.None? || hi.None? || lo.value > hi.value {
        lo, hi := Some(0.0), Some(1.0);
      }
      if lo.value == hi.value {
        hi := Some(lo.value + 1.0);
      }
      assert lo == Some(AxisRange(ds, i).0) && hi == Some(AxisRange(ds, i).1);
      amin[i] := lo;
      amax[i] := hi;
    }

    mins, maxs := [], [];
    for i := 0 to axes
      invariant |mins| == i && |maxs| == i
      invariant forall j :: 0 <= j < i ==> mins[j] == AxisRange(ds, j).0 && maxs[j] == AxisRange(ds, j).1
    {
      mins := mins + [amin[i].value];
      maxs := maxs + [amax[i].value];
    }
  }

  /** The series up to `k + 1` flatten to those up to `k` followed by series `k`. */
  lemma FlattenStep(ds: seq<Series>, k: nat)
    requires k < |ds|
    ensures Flatten(ds[..k + 1]) == Flatten(ds[..k]) + ds[k].data
  {
    assert ds[..k + 1][..k] == ds[..k];
  }

  /** Extending the scanned prefix of `vals` by one cell is one fold step. */
  lemma FoldStep(before: seq<Value>, vals: seq<Value>, j: nat)
    requires j < |vals|
    ensures Low(before + vals[..j + 1]) == FoldMin(Low(before + vals[..j]), vals[j])
    ensures High(before + vals[..j + 1]) == FoldMax(High(before + vals[..j]), vals[j])
  {
    assert before + vals[..j + 1] == (before + vals[..j]) + [vals[j]];
    LowSnoc(before + vals[..j], vals[j]);
  }

  /** Folds one more series' cells, all of them, into the running minimum and maximum. */
  method FoldSeries(lo0: Option<real>, hi0: Option<real>, ghost before: seq<Value>, vals: seq<Value>)
    returns (lo: Option<real>, hi: Option<real>)
    requires lo0 == Low(before) && hi0 == High(before)
    ensures lo == Low(before + vals) && hi == High(before + vals)
  {
    lo, hi := lo0, hi0;
    assert before + vals[..0] == before;
    for j := 0 to |vals|
      invariant lo == Low(before + vals[..j]) && hi == High(before + vals[..j])
    {
      FoldStep(before, vals, j);
      var v := vals[j];
      if v.Some? {
        lo := Lower(lo, v.value);
        hi := Higher(hi, v.value);
      }
    }
    assert vals[..|vals|] == vals;
  }

  /**
   * The autoscale range of `setData`: minimum and maximum over every number
   * of every series, repaired like an axis range (ChartData.cpp, inside `setData`).
   */
  method GlobalMinMax(ds: seq<Series>) returns (mn: real, mx: real)
    ensures (mn, mx) == GlobalRange(ds)
  {
    var lo: Option<real> := None;
    var hi: Option<real> := None;
    for k := 0 to |ds|
      invariant lo == Low(Flatten(ds[..k])) && hi == High(Flatten(ds[..k]))
    {
      FlattenStep(ds, k);
      lo, hi := FoldSeries(lo, hi, Flatten(ds[..k]), ds[k].data);
    }
    assert ds[..|ds|] == ds;

    if lo.None? || hi.None? || lo.value > hi.value {
      lo, hi := Some(0.0), Some(1.0);
    }
    if lo.value == hi.value {
      hi := Some(lo.value + 1.0);
    }
    mn, mx := lo.value, hi.value;
  }
}
