/**
 * Per-axis normalisation (ChartData.cpp, `normalizePerAxisDatasets`): every
 * series becomes N values in [0, 1], value i rescaled against the range of
 * axis i, an absent or non-numeric cell read as 0.
 */
module Normalize {
  import opened Wrappers
  import opened Datasets
  import opened Ranges

  /** `n` axis ranges are available and each is strict, so no division is by zero. */
  predicate RangesFit(n: nat, mins: seq<real>, maxs: seq<real>) {
    n <= |mins| && n <= |maxs| && forall i :: 0 <= i < n ==> mins[i] < maxs[i]
  }

  /** The computed axis ranges always fit. */
  lemma AxisRangesFit(n: nat, ds: seq<Series>)
    ensures RangesFit(n, AxisMins(n, ds), AxisMaxs(n, ds))
  {
  }

  /** (v - lo) / (hi - lo), clamped to [0, 1]. */
  function Scale(v: real, lo: real, hi: real): (r: real)
    requires lo < hi
    ensures 0.0 <= r <= 1.0
    ensures v <= lo ==> r == 0.0
    ensures hi <= v ==> r == 1.0
    ensures lo <= v <= hi ==> r * (hi - lo) == v - lo
  {
    var n := (v - lo) / (hi - lo);
    DivisionFacts(v - lo, hi - lo);
    var n1 := if n < 0.0 then 0.0 else n;
    if n1 > 1.0 then 1.0 else n1
  }

  lemma DivisionFacts(a: real, w: real)
    requires w > 0.0
    ensures (a / w) * w == a
    ensures a <= 0.0 ==> a / w <= 0.0
    ensures a >= w ==> a / w >= 1.0
  {
    var q := a / w;
    assert q * w == a;
    assert q > 0.0 ==> q * w > 0.0;
    assert q < 1.0 ==> q * w < w;
  }

  /** The cell a normalised series holds on axis `i`. */
  function NormalizedCell(s: Series, i: nat, mins: seq<real>, maxs: seq<real>): real
    requires i < |mins| && i < |maxs| && mins[i] < maxs[i]
  {
    Scale(OrZero(Cell(s, i)), mins[i], maxs[i])
  }

  /** A series with its name kept and its first `n` cells normalised. */
  function NormalizeSeries(s: Series, n: nat, mins: seq<real>, maxs: seq<real>): Series
    requires RangesFit(n, mins, maxs)
  {
    Series(s.name, seq(n, i requires 0 <= i < n => Some(NormalizedCell(s, i, mins, maxs))))
  }

  /**
   * Every series normalised: same count and order, names kept, exactly `n`
   * values each, every value a number in [0, 1].
   */
  function NormalizeAll(n: nat, ds: seq<Series>, mins: seq<real>, maxs: seq<real>): (r: seq<Series>)
    requires RangesFit(n, mins, maxs)
    ensures |r| == |ds|
    ensures forall k :: 0 <= k < |ds| ==> r[k].name == ds[k].name && |r[k].data| == n
    ensures forall k, i :: 0 <= k < |ds| && 0 <= i < n ==>
      r[k].data[i].Some? && 0.0 <= r[k].data[i].value <= 1.0
  {
    seq(|ds|, k requires 0 <= k < |ds| => NormalizeSeries(ds[k], n, mins, maxs))
  }

  /**
   * A cell equal to its axis minimum maps to 0 and one equal to its axis
   * maximum maps to 1; an absent or non-numeric cell is normalised as 0.
   */
  lemma NormalizeEndpoints(n: nat, ds: seq<Series>, mins: seq<real>, maxs: seq<real>, k: nat, i: nat)
    requires RangesFit(n, mins, maxs)
    requires k < |ds| && i < n
    ensures Cell(ds[k], i) == Some(mins[i]) ==> NormalizeAll(n, ds, mins, maxs)[k].data[i] == Some(0.0)
    ensures Cell(ds[k], i) == Some(maxs[i]) ==> NormalizeAll(n, ds, mins, maxs)[k].data[i] == Some(1.0)
    ensures Cell(ds[k], i).None? ==>
      NormalizeAll(n, ds, mins, maxs)[k].data[i] == Some(Scale(0.0, mins[i], maxs[i]))
  {
  }

  /**
   * With the computed ranges, the cell holding the least number of its axis
   * normalises to 0, the cell holding the greatest to 1 unless every number
   * on the axis is the same, and on such a constant axis every number
   * normalises to 0.
   */
  lemma NormalizeObservedExtremes(n: nat, ds: seq<Series>, k: nat, i: nat, v: real)
    requires k < |ds| && i < n && Cell(ds[k], i) == Some(v)
    ensures var out := NormalizeAll(n, ds, AxisMins(n, ds), AxisMaxs(n, ds));
      && (IsLeast(v, Column(ds, i)) ==> out[k].data[i] == Some(0.0))
      && (IsGreatest(v, Column(ds, i)) && !IsLeast(v, Column(ds, i)) ==> out[k].data[i] == Some(1.0))
      && ((forall m :: 0 <= m < |ds| && Cell(ds[m], i).Some? ==> Cell(ds[m], i).value == v) ==>
            out[k].data[i] == Some(0.0))
  {
    AxisRangesFit(n, ds);
    var col := Column(ds, i);
    var r := AxisRange(ds, i);
    AxisRangeSpec(ds, i);
    assert col[k] == Some(v);
    assert !NoNumber(col);
    assert AxisMins(n, ds)[i] == r.0 && AxisMaxs(n, ds)[i] == r.1;
    if IsLeast(v, col) {
      assert r.0 == v;
    }
    if IsGreatest(v, col) && !IsLeast(v, col) {
      var j :| 0 <= j < |col| && col[j] == Some(r.0);
      assert r.0 < v;
      assert !IsGreatest(r.0, col);
      assert r.1 == v;
    }
    if forall m :: 0 <= m < |ds| && Cell(ds[m], i).Some? ==> Cell(ds[m], i).value == v {
      assert IsLeast(v, col);
    }
  }

  /**
   * Each series rescaled into [0, 1] per axis against the given ranges
   * (ChartData.cpp, `normalizePerAxisDatasets`).
   */
  method NormalizePerAxisDatasets(labels: seq<string>, ds: seq<Series>, axisMins: seq<real>, axisMaxs: seq<real>)
    returns (out: seq<Series>)
    requires RangesFit(|labels|, axisMins, axisMaxs)
    ensures out == NormalizeAll(|labels|, ds, axisMins, axisMaxs)
  {
    var axes := |labels|;
    out := [];
    for k := 0 to |ds|
      invariant |out| == k
      invariant forall m :: 0 <= m < k ==> out[m] == NormalizeSeries(ds[m], axes, axisMins, axisMaxs)
    {
      var vals := ds[k].data;
      var normVals: seq<Value> := [];
      for i := 0 to axes
        invariant |normVals| == i
        invariant forall j :: 0 <= j < i ==> normVals[j] == Some(NormalizedCell(ds[k], j, axisMins, axisMaxs))
      {
        var v := 0.0;
        if i < |vals| {
          var x := vals[i];
          v := if x.Some? then x.value else 0.0;
        }
        var minA := axisMins[i];
        var maxA := axisMaxs[i];
        var n := (v - minA) / (maxA - minA);
        if n < 0.0 { n := 0.0; }
        if n > 1.0 { n := 1.0; }
        normVals := normVals + [Some(n)];
      }
      out := out + [Series(ds[k].name, normVals)];
    }
  }
}
