/**
 * The dataset store `ChartData` (ChartData.h, ChartData.cpp): axis labels,
 * the raw series as loaded, the series shown (normalised per axis or raw),
 * the per-axis ranges, the global min/max of the value scale, the two mode
 * flags and the path of the last loaded file. Each public operation is a
 * pure transition on `ChartState`; the class `ChartData` performs it in
 * place. Change notifications are recorded, in emission order, in `signals`.
 */
module Chart {
  import opened Wrappers
  import opened Text
  import opened Datasets
  import opened Ranges
  import opened Normalize
  import opened TableParser
  import opened Tokenizer

  /** The change notifications the store emits. */
  datatype Signal =
    | LabelsChanged
    | DatasetsChanged
    | MinMaxChanged
    | AutoscaleChanged
    | NormalizePerAxisChanged
    | AxisRangesChanged

  /** What the file system holds at a path: nothing, something that cannot be opened, or lines of text. */
  datatype FileStatus = Missing | Unreadable | Readable(lines: seq<string>)

  /** Every field of the store, as a value. */
  datatype ChartState = ChartState(
    labels: seq<string>,
    rawDatasets: seq<Series>,
    datasets: seq<Series>,
    axisMins: seq<real>,
    axisMaxs: seq<real>,
    minValue: real,
    maxValue: real,
    autoscale: bool,
    normalizePerAxis: bool,
    lastCsvPath: string,
    signals: seq<Signal>)

  /** The field defaults of a fresh store, before the constructor fills in its sample data. */
  function Defaults(): ChartState {
    ChartState([], [], [], [], [], 0.0, 1.0, false, true, [], [])
  }

  function DemoLabels(): seq<string> {
    ["Eating", "Drinking", "Sleeping", "Coding"]
  }

  function DemoDatasets(): seq<Series> {
    [ Series("Sample A", [Some(65.0), Some(59.0), Some(90.0), Some(81.0)]),
      Series("Sample B", [Some(28.0), Some(48.0), Some(40.0), Some(19.0)]) ]
  }

  /** The series shown for given labels and raw series in a given mode. */
  function Display(labels: seq<string>, ds: seq<Series>, normalizePerAxis: bool): seq<Series> {
    var n := |labels|;
    AxisRangesFit(n, ds);
    if normalizePerAxis then NormalizeAll(n, ds, AxisMins(n, ds), AxisMaxs(n, ds)) else ds
  }

  /** The value scale `setData` leaves: (0, 1) when normalising, the global range with autoscale, else unchanged. */
  function ScaleAfter(s: ChartState, ds: seq<Series>): (real, real) {
    if s.normalizePerAxis then (0.0, 1.0)
    else if s.autoscale then GlobalRange(ds)
    else (s.minValue, s.maxValue)
  }

  /** The notifications of `setData`: the scale's only when it is recomputed. */
  function SetDataSignals(s: ChartState): seq<Signal> {
    [AxisRangesChanged] + (if s.normalizePerAxis || s.autoscale then [MinMaxChanged] else [])
      + [LabelsChanged, DatasetsChanged]
  }

  /** `setData`: store, recompute the axis ranges, then the shown series and the value scale. */
  function AfterSetData(s: ChartState, labels: seq<string>, ds: seq<Series>): ChartState {
    s.(labels := labels, rawDatasets := ds, datasets := Display(labels, ds, s.normalizePerAxis),
       axisMins := AxisMins(|labels|, ds), axisMaxs := AxisMaxs(|labels|, ds),
       minValue := ScaleAfter(s, ds).0, maxValue := ScaleAfter(s, ds).1,
       signals := s.signals + SetDataSignals(s))
  }

  /** `clearData`: empty labels, series and ranges; keep the scale, the flags and the path. */
  function AfterClear(s: ChartState): ChartState {
    s.(labels := [], rawDatasets := [], datasets := [], axisMins := [], axisMaxs := [],
       signals := s.signals + [LabelsChanged, DatasetsChanged, AxisRangesChanged])
  }

  /**
   * `loadGeneric`: whether the load succeeded, and the new state. A missing
   * or unreadable file, a file without a non-blank line and a table without
   * labels or rows leave the state as it was; a table read records the path
   * and is then handed to `setData`.
   */
  function AfterLoad(s: ChartState, path: string, file: FileStatus, delim: char, parse: string -> Option<real>)
    : (bool, ChartState)
  {
    match file
    case Missing => (false, s)
    case Unreadable => (false, s)
    case Readable(lines) =>
      match ParseTable(lines, delim, parse)
      case Failure(_) => (false, s)
      case Success(t) => (true, AfterSetData(s.(lastCsvPath := path), t.labels, t.rows))
  }

  /** The delimiter a reload uses: tab for a ".tsv" or ".txt" path, in any letter case, comma otherwise. */
  function ReloadDelimiter(path: string): char {
    if EndsWithIgnoreCase(path, ".tsv") || EndsWithIgnoreCase(path, ".txt") then '\t' else ','
  }

  /** `reloadLastCsv`: fails without a stored path, otherwise loads that path again. */
  function AfterReload(s: ChartState, fs: string -> FileStatus, parse: string -> Option<real>): (bool, ChartState) {
    if s.lastCsvPath == [] then (false, s)
    else AfterLoad(s, s.lastCsvPath, fs(s.lastCsvPath), ReloadDelimiter(s.lastCsvPath), parse)
  }

  /** `setNormalizePerAxis`: nothing if unchanged, else flip and re-run `setData` when there are labels and data. */
  function AfterSetNormalize(s: ChartState, v: bool): ChartState {
    if s.normalizePerAxis == v then s
    else
      var s1 := s.(normalizePerAxis := v, signals := s.signals + [NormalizePerAxisChanged]);
      if s.labels != [] && s.rawDatasets != [] then AfterSetData(s1, s.labels, s.rawDatasets) else s1
  }

  function AfterSetMinValue(s: ChartState, v: real): ChartState {
    s.(minValue := v, signals := s.signals + [MinMaxChanged])
  }

  function AfterSetMaxValue(s: ChartState, v: real): ChartState {
    s.(maxValue := v, signals := s.signals + [MinMaxChanged])
  }

  function AfterSetAutoscale(s: ChartState, a: bool): ChartState {
    s.(autoscale := a, signals := s.signals + [AutoscaleChanged])
  }

  /** The state right after construction: the defaults, then `setData` on the sample data. */
  function Initial(): ChartState {
    AfterSetData(Defaults(), DemoLabels(), DemoDatasets())
  }

  /**
   * What the store keeps true between operations: the axis ranges are those
   * of the raw series for the current labels; the shown series are as many
   * as the raw ones and carry their names; and while there are labels and
   * data, the shown series are those the current mode derives from the raw
   * ones.
   */
  predicate Consistent(s: ChartState) {
    && s.axisMins == AxisMins(|s.labels|, s.rawDatasets)
    && s.axisMaxs == AxisMaxs(|s.labels|, s.rawDatasets)
    && |s.datasets| == |s.rawDatasets|
    && (forall k :: 0 <= k < |s.datasets| ==> s.datasets[k].name == s.rawDatasets[k].name)
    && (s.labels != [] && s.rawDatasets != [] ==>
          s.datasets == Display(s.labels, s.rawDatasets, s.normalizePerAxis))
  }

  /** The shown series keep count and names; normalised, each holds one value in [0, 1] per label. */
  lemma DisplayShape(labels: seq<string>, ds: seq<Series>, normalizePerAxis: bool)
    ensures var out := Display(labels, ds, normalizePerAxis);
      && |out| == |ds|
      && (forall k :: 0 <= k < |ds| ==> out[k].name == ds[k].name)
      && (normalizePerAxis ==> forall k :: 0 <= k < |ds| ==> |out[k].data| == |labels|)
      && (normalizePerAxis ==> forall k, i :: 0 <= k < |ds| && 0 <= i < |labels| ==>
            out[k].data[i].Some? && 0.0 <= out[k].data[i].value <= 1.0)
      && (!normalizePerAxis ==> out == ds)
  {
  }

  /**
   * In a consistent state there is one strict range per label, and every
   * number a raw series holds on an axis lies within that axis's range.
   */
  lemma ConsistentRanges(s: ChartState)
    requires Consistent(s)
    ensures |s.axisMins| == |s.labels| && |s.axisMaxs| == |s.labels|
    ensures forall i :: 0 <= i < |s.labels| ==> s.axisMins[i] < s.axisMaxs[i]
    ensures forall k, i :: 0 <= k < |s.rawDatasets| && 0 <= i < |s.labels| && Cell(s.rawDatasets[k], i).Some? ==>
      s.axisMins[i] <= Cell(s.rawDatasets[k], i).value <= s.axisMaxs[i]
  {
    forall i | 0 <= i < |s.labels|
      ensures s.axisMins[i] < s.axisMaxs[i]
      ensures forall k :: 0 <= k < |s.rawDatasets| && Cell(s.rawDatasets[k], i).Some? ==>
        s.axisMins[i] <= Cell(s.rawDatasets[k], i).value <= s.axisMaxs[i]
    {
      AxisRangeSpec(s.rawDatasets, i);
    }
  }

  /**
   * `setData` stores labels and raw series, leaves a consistent state, keeps
   * the flags and the path, and emits the axis ranges, the scale (when it
   * changes it), the labels and the series, in that order.
   */
  lemma SetDataStores(s: ChartState, labels: seq<string>, ds: seq<Series>)
    ensures var t := AfterSetData(s, labels, ds);
      && t.labels == labels && t.rawDatasets == ds
      && Consistent(t)
      && t.autoscale == s.autoscale && t.normalizePerAxis == s.normalizePerAxis
      && t.lastCsvPath == s.lastCsvPath
      && t.signals == s.signals + [AxisRangesChanged]
           + (if s.normalizePerAxis || s.autoscale then [MinMaxChanged] else [])
           + [LabelsChanged, DatasetsChanged]
  {
    DisplayShape(labels, ds, s.normalizePerAxis);
  }

  /**
   * The value scale after `setData`: (0, 1) when normalising; when showing
   * raw values with autoscale, the global range of all series, which is strict
   * and holds every number of every series at every index; otherwise the scale
   * as it was.
   */
  lemma SetDataScale(s: ChartState, labels: seq<string>, ds: seq<Series>)
    ensures var t := AfterSetData(s, labels, ds);
      && (s.normalizePerAxis ==> t.minValue == 0.0 && t.maxValue == 1.0)
      && (!s.normalizePerAxis ==> t.datasets == ds)
      && (!s.normalizePerAxis && s.autoscale ==>
            (t.minValue, t.maxValue) == GlobalRange(ds)
            && t.minValue < t.maxValue
            && forall k, j :: 0 <= k < |ds| && 0 <= j < |ds[k].data| && ds[k].data[j].Some? ==>
                 t.minValue <= ds[k].data[j].value <= t.maxValue)
      && (!s.normalizePerAxis && !s.autoscale ==> t.minValue == s.minValue && t.maxValue == s.maxValue)
  {
    GlobalRangeSpec(ds);
  }

  /** `clearData` leaves a consistent, empty store with scale, flags and path untouched. */
  lemma ClearEmpties(s: ChartState)
    ensures var t := AfterClear(s);
      && Consistent(t)
      && t.labels == [] && t.rawDatasets == [] && t.datasets == [] && t.axisMins == [] && t.axisMaxs == []
      && t.minValue == s.minValue && t.maxValue == s.maxValue
      && t.autoscale == s.autoscale && t.normalizePerAxis == s.normalizePerAxis
      && t.lastCsvPath == s.lastCsvPath
  {
  }

  /**
   * A load succeeds exactly when the file is readable and holds a table; a
   * failed load changes nothing, the path included; a successful one records
   * the path and stores the table's non-empty labels and rows through `setData`.
   */
  lemma LoadOutcome(s: ChartState, path: string, file: FileStatus, delim: char, parse: string -> Option<real>)
    ensures var (ok, t) := AfterLoad(s, path, file, delim, parse);
      && (ok <==> file.Readable? && ParseTable(file.lines, delim, parse).Success?)
      && (!ok ==> t == s)
      && (ok ==> var table := ParseTable(file.lines, delim, parse).value;
            && t == AfterSetData(s.(lastCsvPath := path), table.labels, table.rows)
            && t.lastCsvPath == path && t.labels != [] && t.rawDatasets != [])
  {
    if file.Readable? && ParseTable(file.lines, delim, parse).Success? {
      ParseTableOutcome(file.lines, delim, parse);
    }
  }

  /** A readable file holding only blank lines fails to load. */
  lemma LoadBlankFileFails(s: ChartState, path: string, lines: seq<string>, delim: char, parse: string -> Option<real>)
    requires forall j :: 0 <= j < |lines| ==> IsBlank(lines[j])
    ensures AfterLoad(s, path, Readable(lines), delim, parse) == (false, s)
  {
    ParseTableEmptyHeader(lines, delim, parse);
  }

  /** Loading keeps the store consistent, whatever the outcome. */
  lemma LoadKeepsConsistent(s: ChartState, path: string, file: FileStatus, delim: char, parse: string -> Option<real>)
    requires Consistent(s)
    ensures Consistent(AfterLoad(s, path, file, delim, parse).1)
  {
    if file.Readable? && ParseTable(file.lines, delim, parse).Success? {
      var table := ParseTable(file.lines, delim, parse).value;
      SetDataStores(s.(lastCsvPath := path), table.labels, table.rows);
    }
  }

  /**
   * Loading a table written with a "label" header and one rendered row per
   * series succeeds, records the path, and stores exactly those labels and
   * series; with normalisation off the series shown are the numbers written.
   */
  lemma LoadRoundTrip(s: ChartState, path: string, lines: seq<string>, labels: seq<string>, names: seq<string>,
                      tss: seq<seq<string>>, xss: seq<seq<real>>, delim: char, parse: string -> Option<real>)
    requires labels != [] && names != [] && delim !in "label"
    requires forall i :: 0 <= i < |labels| ==> labels[i] != [] && delim !in labels[i] && Trim(labels[i]) == labels[i]
    requires |lines| >= 1 && lines[0] == Join(["label"] + labels, delim)
    requires RenderedRows(lines[1..], names, tss, xss, delim, parse)
    ensures var (ok, t) := AfterLoad(s, path, Readable(lines), delim, parse);
      && ok && t.lastCsvPath == path
      && t.labels == labels && t.rawDatasets == Expected(names, xss)
      && (!s.normalizePerAxis ==> t.datasets == Expected(names, xss))
  {
    TableRoundTrip(lines, labels, names, tss, xss, delim, parse);
  }

  /** Lower-casing twice is lower-casing once. */
  lemma ToLowerIdempotent(s: string)
    ensures ToLower(ToLower(s)) == ToLower(s)
  {
  }

  /** Lower-casing a suffix is taking the suffix of the lower-cased string. */
  lemma ToLowerSuffix(s: string, n: nat)
    requires n <= |s|
    ensures ToLower(s[n..]) == ToLower(s)[n..]
  {
  }

  /** The delimiter of a reload depends only on the path's letters, not their case. */
  lemma ReloadDelimiterIgnoresCase(path: string)
    ensures ReloadDelimiter(ToLower(path)) == ReloadDelimiter(path)
  {
    var low := ToLower(path);
    forall suffix: string | |suffix| <= |path|
      ensures EndsWithIgnoreCase(low, suffix) == EndsWithIgnoreCase(path, suffix)
    {
      var n := |path| - |suffix|;
      ToLowerSuffix(path, n);
      ToLowerIdempotent(path[n..]);
      assert ToLower(low[n..]) == ToLower(path[n..]);
    }
  }

  /** ".TSV" and ".txt" paths reload tab-separated; ".csv" and suffix-less paths comma-separated. */
  lemma ReloadDelimiterExamples()
    ensures ReloadDelimiter("data.TSV") == '\t'
    ensures ReloadDelimiter("notes.txt") == '\t'
    ensures ReloadDelimiter("data.csv") == ','
    ensures ReloadDelimiter("tsv") == ','
  {
    assert ToLower("data.TSV"[4..]) == ".tsv";
    assert ToLower("notes.txt"[5..]) == ".txt";
    assert ToLower("data.csv"[4..]) == ".csv";
  }

  /**
   * Without a stored path a reload fails and changes nothing; with one, it is
   * the load of that path with the delimiter its suffix selects, and the path
   * stays the same whatever the outcome.
   */
  lemma ReloadOutcome(s: ChartState, fs: string -> FileStatus, parse: string -> Option<real>)
    ensures s.lastCsvPath == [] ==> AfterReload(s, fs, parse) == (false, s)
    ensures s.lastCsvPath != [] ==>
      AfterReload(s, fs, parse) ==
        AfterLoad(s, s.lastCsvPath, fs(s.lastCsvPath), ReloadDelimiter(s.lastCsvPath), parse)
    ensures AfterReload(s, fs, parse).1.lastCsvPath == s.lastCsvPath
  {
    if s.lastCsvPath != [] {
      LoadOutcome(s, s.lastCsvPath, fs(s.lastCsvPath), ReloadDelimiter(s.lastCsvPath), parse);
    }
  }

  /**
   * Setting the normalisation flag to its current value changes nothing;
   * setting it twice is setting it once; the flag ends as requested, and
   * consistency is kept.
   */
  lemma SetNormalizeSpec(s: ChartState, v: bool)
    requires Consistent(s)
    ensures s.normalizePerAxis == v ==> AfterSetNormalize(s, v) == s
    ensures AfterSetNormalize(AfterSetNormalize(s, v), v) == AfterSetNormalize(s, v)
    ensures AfterSetNormalize(s, v).normalizePerAxis == v
    ensures Consistent(AfterSetNormalize(s, v))
  {
    if s.normalizePerAxis != v {
      var s1 := s.(normalizePerAxis := v, signals := s.signals + [NormalizePerAxisChanged]);
      if s.labels != [] && s.rawDatasets != [] {
        SetDataStores(s1, s.labels, s.rawDatasets);
      }
    }
  }

  /**
   * Switching the mode on a store with labels and data shows what that mode
   * derives from the raw series, and switching back restores the shown series.
   */
  lemma SetNormalizeRederives(s: ChartState, v: bool)
    requires Consistent(s) && s.labels != [] && s.rawDatasets != []
    ensures AfterSetNormalize(s, v).datasets == Display(s.labels, s.rawDatasets, v)
    ensures AfterSetNormalize(AfterSetNormalize(s, v), s.normalizePerAxis).datasets == s.datasets
  {
    SetNormalizeSpec(s, v);
  }

  /**
   * The two bounds of the scale are set independently, in either order,
   * without looking at the data or at each other, and nothing else changes.
   */
  lemma SetBoundsCommute(s: ChartState, lo: real, hi: real)
    ensures AfterSetMaxValue(AfterSetMinValue(s, lo), hi) == AfterSetMinValue(AfterSetMaxValue(s, hi), lo)
    ensures var t := AfterSetMaxValue(AfterSetMinValue(s, lo), hi);
      t.minValue == lo && t.maxValue == hi && t == s.(minValue := lo, maxValue := hi, signals := t.signals)
  {
  }

  /** The inline setters keep consistency; setting autoscale neither rescales nor reshows anything. */
  lemma SettersKeepConsistent(s: ChartState, v: real, a: bool)
    requires Consistent(s)
    ensures Consistent(AfterSetMinValue(s, v)) && Consistent(AfterSetMaxValue(s, v))
    ensures Consistent(AfterSetAutoscale(s, a))
    ensures var t := AfterSetAutoscale(s, a);
      t.autoscale == a && t.datasets == s.datasets && t.minValue == s.minValue && t.maxValue == s.maxValue
  {
  }

  /**
   * A fresh store normalises per axis, has autoscale off, the scale (0, 1),
   * the four sample axes, no stored path, and its two sample series shown
   * normalised into [0, 1].
   */
  lemma InitialState()
    ensures var s := Initial();
      && s.normalizePerAxis && !s.autoscale
      && s.minValue == 0.0 && s.maxValue == 1.0
      && s.labels == DemoLabels() && s.rawDatasets == DemoDatasets()
      && s.lastCsvPath == []
      && Consistent(s)
      && |s.datasets| == 2
      && forall k, i :: 0 <= k < 2 && 0 <= i < 4 ==>
           s.datasets[k].data[i].Some? && 0.0 <= s.datasets[k].data[i].value <= 1.0
  {
    SetDataStores(Defaults(), DemoLabels(), DemoDatasets());
    DisplayShape(DemoLabels(), DemoDatasets(), true);
  }

  /** The store itself: its fields are updated in place by the operations above. */
  class ChartData {
    var labels: seq<string>
    var rawDatasets: seq<Series>
    var datasets: seq<Series>
    var axisMins: seq<real>
    var axisMaxs: seq<real>
    var minValue: real
    var maxValue: real
    var autoscale: bool
    var normalizePerAxis: bool
    var lastCsvPath: string
    var signals: seq<Signal>

    /** The fields, as a value. */
    function Snapshot(): ChartState
      reads this
    {
      ChartState(labels, rawDatasets, datasets, axisMins, axisMaxs, minValue, maxValue,
                 autoscale, normalizePerAxis, lastCsvPath, signals)
    }

    predicate Valid()
      reads this
    {
      Consistent(Snapshot())
    }

    /** The defaults, the sample labels and series, then `setData` on them. */
    constructor()
      ensures Snapshot() == Initial()
      ensures Valid()
    {
      labels := DemoLabels();
      rawDatasets := DemoDatasets();
      datasets := rawDatasets;
      axisMins := [];
      axisMaxs := [];
      minValue := 0.0;
      maxValue := 1.0;
      autoscale := false;
      normalizePerAxis := true;
      lastCsvPath := [];
      signals := [];
      new;
      SetData(DemoLabels(), DemoDatasets());
    }

    method SetData(newLabels: seq<string>, newDatasets: seq<Series>)
      modifies this
      ensures Snapshot() == AfterSetData(old(Snapshot()), newLabels, newDatasets)
      ensures Valid()
    {
      ghost var s := Snapshot();
      SetDataStores(s, newLabels, newDatasets);

      var mins, maxs := ComputeAxisRanges(newLabels, newDatasets);
      var shown, mn, mx, scaled := newDatasets, minValue, maxValue, [];
      if normalizePerAxis {
        AxisRangesFit(|newLabels|, newDatasets);
        shown := NormalizePerAxisDatasets(newLabels, newDatasets, mins, maxs);
        mn, mx, scaled := 0.0, 1.0, [MinMaxChanged];
      } else if autoscale {
        mn, mx := GlobalMinMax(newDatasets);
        scaled := [MinMaxChanged];
      }

      labels, rawDatasets, axisMins, axisMaxs := newLabels, newDatasets, mins, maxs;
      datasets, minValue, maxValue := shown, mn, mx;
      signals := signals + [AxisRangesChanged] + scaled + [LabelsChanged, DatasetsChanged];
    }

    method ClearData()
      modifies this
      ensures Snapshot() == AfterClear(old(Snapshot()))
      ensures Valid()
    {
      ClearEmpties(Snapshot());
      labels := [];
      rawDatasets := [];
      datasets := [];
      axisMins := [];
      axisMaxs := [];
      signals := signals + [LabelsChanged, DatasetsChanged, AxisRangesChanged];
    }

    /** Loads a table from `file`, the content found at `path`. */
    method LoadGeneric(path: string, file: FileStatus, delim: char, parse: string -> Option<real>)
      returns (ok: bool)
      requires Valid()
      modifies this
      ensures (ok, Snapshot()) == AfterLoad(old(Snapshot()), path, file, delim, parse)
      ensures Valid()
    {
      ghost var s := Snapshot();
      LoadKeepsConsistent(s, path, file, delim, parse);
      if file.Missing? || file.Unreadable? {
        return false;
      }
      var r := ParseLines(file.lines, delim, parse);
      if r.Failure? {
        return false;
      }
      lastCsvPath := path;
      SetData(r.value.labels, r.value.rows);
      return true;
    }

    /** Loads the comma-separated file at `path` (already resolved from a URL). */
    method LoadCsv(path: string, fs: string -> FileStatus, parse: string -> Option<real>) returns (ok: bool)
      requires Valid()
      modifies this
      ensures (ok, Snapshot()) == AfterLoad(old(Snapshot()), path, fs(path), ',', parse)
      ensures Valid()
    {
      ok := LoadGeneric(path, fs(path), ',', parse);
    }

    /** Loads the tab-separated file at `path` (already resolved from a URL). */
    method LoadTsv(path: string, fs: string -> FileStatus, parse: string -> Option<real>) returns (ok: bool)
      requires Valid()
      modifies this
      ensures (ok, Snapshot()) == AfterLoad(old(Snapshot()), path, fs(path), '\t', parse)
      ensures Valid()
    {
      ok := LoadGeneric(path, fs(path), '\t', parse);
    }

    method ReloadLastCsv(fs: string -> FileStatus, parse: string -> Option<real>) returns (ok: bool)
      requires Valid()
      modifies this
      ensures (ok, Snapshot()) == AfterReload(old(Snapshot()), fs, parse)
      ensures Valid()
    {
      if lastCsvPath == [] {
        return false;
      }
      if EndsWithIgnoreCase(lastCsvPath, ".tsv") || EndsWithIgnoreCase(lastCsvPath, ".txt") {
        ok := LoadGeneric(lastCsvPath, fs(lastCsvPath), '\t', parse);
      } else {
        ok := LoadGeneric(lastCsvPath, fs(lastCsvPath), ',', parse);
      }
    }

    method SetNormalizePerAxis(v: bool)
      requires Valid()
      modifies this
      ensures Snapshot() == AfterSetNormalize(old(Snapshot()), v)
      ensures Valid()
    {
      ghost var s := Snapshot();
      SetNormalizeSpec(s, v);
      if normalizePerAxis == v {
        return;
      }
      normalizePerAxis := v;
      signals := signals + [NormalizePerAxisChanged];
      if labels != [] && rawDatasets != [] {
        SetData(labels, rawDatasets);
      }
    }

    method SetMinValue(v: real)
      requires Valid()
      modifies this
      ensures Snapshot() == AfterSetMinValue(old(Snapshot()), v)
      ensures Valid()
    {
      minValue := v;
      signals := signals + [MinMaxChanged];
    }

    method SetMaxValue(v: real)
      requires Valid()
      modifies this
      ensures Snapshot() == AfterSetMaxValue(old(Snapshot()), v)
      ensures Valid()
    {
      maxValue := v;
      signals := signals + [MinMaxChanged];
    }

    method SetAutoscale(a: bool)
      requires Valid()
      modifies this
      ensures Snapshot() == AfterSetAutoscale(old(Snapshot()), a)
      ensures Valid()
    {
      autoscale := a;
      signals := signals + [AutoscaleChanged];
    }
  }
}
