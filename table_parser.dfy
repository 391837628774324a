/**
 * The parsing part of `ChartData::loadGeneric` (ChartData.cpp): the file is
 * the sequence of its lines; the first non-blank line, trimmed, is the
 * header; a first header field naming a label column makes the first token
 * of every row that row's name; every later non-blank line becomes a series
 * whose tokens are read as numbers, 0 for a token that is not one. Reading a
 * number is the parameter `parse` (the behaviour of `QString::toDouble`).
 */
module TableParser {
  import opened Wrappers
  import opened Text
  import opened Tokenizer
  import opened Datasets

  /** Axis labels and the series read from a table. */
  datatype Table = Table(labels: seq<string>, rows: seq<Series>)

  /** Why a parse fails: no non-blank line, or no axis label or no row. */
  datatype LoadError = EmptyHeader | NoData

  /** The index of the first non-blank line from `i` on, or |lines| when there is none. */
  function FirstNonBlankFrom(lines: seq<string>, i: nat): (k: nat)
    requires i <= |lines|
    ensures i <= k <= |lines|
    ensures k < |lines| ==> !IsBlank(lines[k])
    decreases |lines| - i
  {
    if i == |lines| || !IsBlank(lines[i]) then i else FirstNonBlankFrom(lines, i + 1)
  }

  /** The index of the first non-blank line, or |lines| when every line is blank. */
  function FirstNonBlank(lines: seq<string>): (k: nat)
    ensures k <= |lines|
    ensures k < |lines| ==> !IsBlank(lines[k])
  {
    FirstNonBlankFrom(lines, 0)
  }

  /** Every line the search passes over is blank. */
  lemma {:induction false} BlankBeforeFirstNonBlankFrom(lines: seq<string>, i: nat)
    requires i <= |lines|
    ensures forall j :: i <= j < FirstNonBlankFrom(lines, i) ==> IsBlank(lines[j])
    decreases |lines| - i
  {
    if i < |lines| && IsBlank(lines[i]) {
      BlankBeforeFirstNonBlankFrom(lines, i + 1);
    }
  }

  /** Every line before the first non-blank one is blank. */
  lemma BlankBeforeFirstNonBlank(lines: seq<string>)
    ensures forall j :: 0 <= j < FirstNonBlank(lines) ==> IsBlank(lines[j])
  {
    BlankBeforeFirstNonBlankFrom(lines, 0);
  }

  /** A first header field that, lower-cased, contains "label", "name" or "case". */
  predicate IsLabelMarker(h: string) {
    var l := ToLower(h);
    Contains(l, "label") || Contains(l, "name") || Contains(l, "case")
  }

  /** The name given to the `index`-th series (counting from 1) of a table without a label column. */
  function SeriesName(index: nat): string {
    "Series " + DecimalString(index)
  }

  function TrimAll(ts: seq<string>): (r: seq<string>)
    ensures |r| == |ts|
  {
    seq(|ts|, j requires 0 <= j < |ts| => Trim(ts[j]))
  }

  /** Tokens read as numbers, a token that does not parse giving 0. */
  function ValuesOf(ts: seq<string>, parse: string -> Option<real>): (r: seq<Value>)
    ensures |r| == |ts|
  {
    seq(|ts|, j requires 0 <= j < |ts| => Some(OrZero(parse(ts[j]))))
  }

  /** The series read from one non-blank body line. */
  function RowOf(line: string, delim: char, isLabel: bool, index: nat, parse: string -> Option<real>): Series {
    var tokens := TrimAll(Fields(line, delim));
    if isLabel && |tokens| > 0 then Series(tokens[0], ValuesOf(tokens[1..], parse))
    else Series(SeriesName(index), ValuesOf(tokens, parse))
  }

  /** The series read from the body lines, blank lines skipped, numbered from 1. */
  function Rows(body: seq<string>, delim: char, isLabel: bool, parse: string -> Option<real>): seq<Series>
    decreases |body|
  {
    if body == [] then []
    else
      var prev := Rows(body[..|body| - 1], delim, isLabel, parse);
      var line := body[|body| - 1];
      if IsBlank(line) then prev else prev + [RowOf(line, delim, isLabel, |prev| + 1, parse)]
  }

  /** The non-blank lines, in order. */
  function NonBlankLines(body: seq<string>): seq<string>
    decreases |body|
  {
    if body == [] then []
    else NonBlankLines(body[..|body| - 1]) + (if IsBlank(body[|body| - 1]) then [] else [body[|body| - 1]])
  }

  /** What the header line says: whether its first field names a label column, and the axis labels. */
  datatype Header = Header(isLabel: bool, labels: seq<string>)

  /** Reads the trimmed header line: its non-empty fields, less a leading label-column marker. */
  function HeaderOf(line: string, delim: char): Header {
    var fields := NonBlankTrimmed(Fields(line, delim));
    if |fields| > 0 && IsLabelMarker(fields[0]) then Header(true, fields[1..]) else Header(false, fields)
  }

  /** A table when there is at least one label and one row, NoData otherwise. */
  function Assemble(labels: seq<string>, rows: seq<Series>): Result<Table, LoadError> {
    if labels == [] || rows == [] then Failure(NoData) else Success(Table(labels, rows))
  }

  /** The whole parse: the table, or why there is none. */
  function ParseTable(lines: seq<string>, delim: char, parse: string -> Option<real>): Result<Table, LoadError> {
    var h := FirstNonBlank(lines);
    if h == |lines| then Failure(EmptyHeader)
    else
      var hd := HeaderOf(Trim(lines[h]), delim);
      Assemble(hd.labels, Rows(lines[h + 1..], delim, hd.isLabel, parse))
  }

  /** The first non-blank line is the one before which every line is blank. */
  lemma FirstNonBlankIs(lines: seq<string>, k: nat)
    requires k <= |lines|
    requires forall j :: 0 <= j < k ==> IsBlank(lines[j])
    requires k < |lines| ==> !IsBlank(lines[k])
    ensures FirstNonBlank(lines) == k
  {
    BlankBeforeFirstNonBlank(lines);
  }

  /** Row k (from 0) is read from the k-th non-blank body line and, unlabelled, is named "Series k+1". */
  lemma {:induction false} RowsFollowNonBlankLines(body: seq<string>, delim: char, isLabel: bool, parse: string -> Option<real>)
    ensures var rows, nb := Rows(body, delim, isLabel, parse), NonBlankLines(body);
      && |rows| == |nb|
      && (forall k :: 0 <= k < |rows| ==> rows[k] == RowOf(nb[k], delim, isLabel, k + 1, parse))
      && (forall k :: 0 <= k < |nb| ==> !IsBlank(nb[k]))
    decreases |body|
  {
    if body != [] {
      RowsFollowNonBlankLines(body[..|body| - 1], delim, isLabel, parse);
    }
  }

  /** As many rows as non-blank body lines. */
  lemma RowCount(body: seq<string>, delim: char, isLabel: bool, parse: string -> Option<real>)
    ensures |Rows(body, delim, isLabel, parse)| == |NonBlankLines(body)|
  {
    RowsFollowNonBlankLines(body, delim, isLabel, parse);
  }

  /** Without a label column, the k-th series read (from 1) is named "Series k". */
  lemma RowsAreNumbered(body: seq<string>, delim: char, parse: string -> Option<real>)
    ensures var rows := Rows(body, delim, false, parse);
      forall k :: 0 <= k < |rows| ==> rows[k].name == SeriesName(k + 1)
  {
    RowsFollowNonBlankLines(body, delim, false, parse);
  }

  /**
   * A row has one value per field of its line, less the name field when there
   * is a label column, so one more than the delimiters it holds, or exactly as
   * many; every value is a number; the name is the trimmed first field or the
   * generated one.
   */
  lemma RowShape(line: string, delim: char, isLabel: bool, index: nat, parse: string -> Option<real>)
    ensures |RowOf(line, delim, isLabel, index, parse).data| == multiset(line)[delim] + (if isLabel then 0 else 1)
    ensures isLabel ==> RowOf(line, delim, isLabel, index, parse).name == Trim(Fields(line, delim)[0])
    ensures !isLabel ==> RowOf(line, delim, isLabel, index, parse).name == SeriesName(index)
    ensures forall j :: 0 <= j < |RowOf(line, delim, isLabel, index, parse).data| ==>
      RowOf(line, delim, isLabel, index, parse).data[j].Some?
  {
    FieldsCount(line, delim);
  }

  /**
   * The header names a label column exactly when its first non-empty field is
   * the marker, and that field is then dropped from the labels; every axis
   * label is non-empty and trimmed.
   */
  lemma HeaderLabels(line: string, delim: char)
    ensures var hd, fields := HeaderOf(line, delim), NonBlankTrimmed(Fields(line, delim));
      && (hd.isLabel <==> |fields| > 0 && IsLabelMarker(fields[0]))
      && hd.labels == (if hd.isLabel then fields[1..] else fields)
    ensures var hd := HeaderOf(line, delim);
      forall j :: 0 <= j < |hd.labels| ==> hd.labels[j] != [] && Trim(hd.labels[j]) == hd.labels[j]
    ensures var hd, fields := HeaderOf(line, delim), NonBlankTrimmed(Fields(line, delim));
      |hd.labels| == |fields| - (if hd.isLabel then 1 else 0)
  {
    NonBlankTrimmedFields(Fields(line, delim));
  }

  /** The parse fails with EmptyHeader exactly when every line is blank. */
  lemma ParseTableEmptyHeader(lines: seq<string>, delim: char, parse: string -> Option<real>)
    ensures ParseTable(lines, delim, parse) == Failure(EmptyHeader) <==>
      forall j :: 0 <= j < |lines| ==> IsBlank(lines[j])
  {
    BlankBeforeFirstNonBlank(lines);
    var h := FirstNonBlank(lines);
    if h < |lines| {
      assert !IsBlank(lines[h]);
    }
  }

  /**
   * Once a header line is found, the parse succeeds exactly when it finds at
   * least one axis label and at least one non-blank line after the header;
   * on success every label is non-empty and trimmed, and there is one row per
   * non-blank line after the header.
   */
  lemma ParseTableOutcome(lines: seq<string>, delim: char, parse: string -> Option<real>)
    requires FirstNonBlank(lines) < |lines|
    ensures var h := FirstNonBlank(lines);
      var r, hd, nb := ParseTable(lines, delim, parse), HeaderOf(Trim(lines[h]), delim), NonBlankLines(lines[h + 1..]);
      && (r.Success? <==> hd.labels != [] && nb != [])
      && (r.Failure? ==> r.error == NoData)
      && (r.Success? ==>
            && (forall j :: 0 <= j < |r.value.labels| ==>
                  r.value.labels[j] != [] && Trim(r.value.labels[j]) == r.value.labels[j])
            && |r.value.rows| == |nb|)
  {
    var h := FirstNonBlank(lines);
    var hd := HeaderOf(Trim(lines[h]), delim);
    var rows := Rows(lines[h + 1..], delim, hd.isLabel, parse);
    assert ParseTable(lines, delim, parse) == Assemble(hd.labels, rows);
    HeaderLabels(Trim(lines[h]), delim);
    RowCount(lines[h + 1..], delim, hd.isLabel, parse);
  }

  /**
   * A row written as its name and tokens joined by the delimiter reads back
   * as that name and the numbers the tokens stand for.
   */
  lemma RowRoundTrip(name: string, ts: seq<string>, xs: seq<real>, delim: char, index: nat, parse: string -> Option<real>)
    requires |ts| == |xs|
    requires delim !in name && Trim(name) == name
    requires forall j :: 0 <= j < |ts| ==> delim !in ts[j] && Trim(ts[j]) == ts[j] && parse(ts[j]) == Some(xs[j])
    ensures RowOf(Join([name] + ts, delim), delim, true, index, parse).name == name
    ensures |RowOf(Join([name] + ts, delim), delim, true, index, parse).data| == |xs|
    ensures forall j :: 0 <= j < |xs| ==> RowOf(Join([name] + ts, delim), delim, true, index, parse).data[j] == Some(xs[j])
  {
    var ps := [name] + ts;
    assert ps[1..] == ts;
    forall j | 0 <= j < |ps|
      ensures delim !in ps[j] && Trim(ps[j]) == ps[j]
    {
      if j > 0 {
        assert ps[j] == ts[j - 1];
      }
    }
    FieldsJoin(ps, delim);
    assert TrimAll(ps) == ps;
  }

  /** Reads one body line into a series (ChartData.cpp, the row loop of `loadGeneric`). */
  method ParseRow(line: string, delim: char, firstColumnIsLabel: bool, index: nat, parse: string -> Option<real>)
    returns (s: Series)
    ensures s == RowOf(line, delim, firstColumnIsLabel, index, parse)
  {
    var raw := SplitKeepEmpty(line, delim);
    var tokens := TrimTokens(raw);

    var name := SeriesName(index);
    var start := 0;
    if firstColumnIsLabel && |tokens| > 0 {
      name := tokens[0];
      start := 1;
    }

    var vals := ReadValues(tokens, start, parse);
    s := Series(name, vals);
  }

  /** Trims every token in place. */
  method TrimTokens(raw: seq<string>) returns (tokens: seq<string>)
    ensures tokens == TrimAll(raw)
  {
    tokens := raw;
    for j := 0 to |tokens|
      invariant |tokens| == |raw|
      invariant forall m :: 0 <= m < j ==> tokens[m] == Trim(raw[m])
      invariant forall m :: j <= m < |tokens| ==> tokens[m] == raw[m]
    {
      tokens := tokens[j := Trim(tokens[j])];
    }
  }

  /** Converts the tokens from `start` on, an unconvertible token counting as 0. */
  method ReadValues(tokens: seq<string>, start: nat, parse: string -> Option<real>) returns (vals: seq<Value>)
    requires start <= |tokens|
    ensures vals == ValuesOf(tokens[start..], parse)
  {
    vals := [];
    for i := start to |tokens|
      invariant |vals| == i - start
      invariant forall m :: 0 <= m < |vals| ==> vals[m] == Some(OrZero(parse(tokens[start + m])))
    {
      var v := parse(tokens[i]);
      var x := if v.Some? then v.value else 0.0;
      vals := vals + [Some(x)];
    }
  }

  /** Reads the trimmed header line (ChartData.cpp, the header part of `loadGeneric`). */
  method ParseHeader(headerLine: string, delim: char) returns (firstColumnIsLabel: bool, labels: seq<string>)
    ensures Header(firstColumnIsLabel, labels) == HeaderOf(headerLine, delim)
  {
    var headers := SplitSkipEmpty(headerLine, delim);
    firstColumnIsLabel := false;
    if |headers| > 0 {
      var h0 := ToLower(headers[0]);
      if Contains(h0, "label") || Contains(h0, "name") || Contains(h0, "case") {
        firstColumnIsLabel := true;
        headers := headers[1..];
      }
    }
    labels := headers;
  }

  /** One more body line adds its row, unless it is blank. */
  lemma RowsStep(lines: seq<string>, from: nat, pos: nat, delim: char, isLabel: bool, parse: string -> Option<real>)
    requires from <= pos < |lines|
    ensures var prev := Rows(lines[from..pos], delim, isLabel, parse);
      Rows(lines[from..pos + 1], delim, isLabel, parse) ==
        if IsBlank(lines[pos]) then prev else prev + [RowOf(lines[pos], delim, isLabel, |prev| + 1, parse)]
  {
    assert lines[from..pos + 1][..pos - from] == lines[from..pos];
  }

  /**
   * Skips to the first line that is not blank once trimmed and returns its
   * index and trimmed text; the text is empty when every line is blank
   * (ChartData.cpp, the header loop of `loadGeneric`).
   */
  method FindHeader(lines: seq<string>) returns (h: nat, headerLine: string)
    ensures h == FirstNonBlank(lines)
    ensures headerLine == [] <==> h == |lines|
    ensures h < |lines| ==> headerLine == Trim(lines[h])
  {
    var pos := 0;
    headerLine := [];
    while pos < |lines|
      invariant 0 <= pos <= |lines|
      invariant headerLine == []
      invariant forall j :: 0 <= j < pos ==> IsBlank(lines[j])
    {
      TrimEmptyIffBlank(lines[pos]);
      headerLine := Trim(lines[pos]);
      pos := pos + 1;
      if headerLine != [] {
        break;
      }
    }
    if headerLine == [] {
      FirstNonBlankIs(lines, |lines|);
      h := |lines|;
    } else {
      FirstNonBlankIs(lines, pos - 1);
      h := pos - 1;
    }
  }

  /** Reads every line from `from` on that is not blank into a series (ChartData.cpp, the row loop of `loadGeneric`). */
  method ReadRows(lines: seq<string>, from: nat, delim: char, firstColumnIsLabel: bool, parse: string -> Option<real>)
    returns (outDatasets: seq<Series>)
    requires from <= |lines|
    ensures outDatasets == Rows(lines[from..], delim, firstColumnIsLabel, parse)
  {
    outDatasets := [];
    var pos := from;
    while pos < |lines|
      invariant from <= pos <= |lines|
      invariant outDatasets == Rows(lines[from..pos], delim, firstColumnIsLabel, parse)
    {
      var line := lines[pos];
      RowsStep(lines, from, pos, delim, firstColumnIsLabel, parse);
      TrimEmptyIffBlank(line);
      ghost var next := Rows(lines[from..pos + 1], delim, firstColumnIsLabel, parse);
      pos := pos + 1;
      if Trim(line) == [] {
        assert next == outDatasets;
        continue;
      }
      var s := ParseRow(line, delim, firstColumnIsLabel, |outDatasets| + 1, parse);
      assert next == outDatasets + [s];
      outDatasets := outDatasets + [s];
    }
    assert lines[from..pos] == lines[from..];
  }

  lemma ParseTableFound(lines: seq<string>, delim: char, parse: string -> Option<real>, h: nat, headerLine: string,
                        isLabel: bool, labels: seq<string>, rows: seq<Series>)
    requires h == FirstNonBlank(lines) && h < |lines| && headerLine == Trim(lines[h])
    requires Header(isLabel, labels) == HeaderOf(headerLine, delim)
    requires rows == Rows(lines[h + 1..], delim, isLabel, parse)
    ensures labels == [] || rows == [] ==> ParseTable(lines, delim, parse) == Failure(NoData)
    ensures labels != [] && rows != [] ==> ParseTable(lines, delim, parse) == Success(Table(labels, rows))
  {
  }

  /** Reads the header and body of a file's lines (ChartData.cpp, the parsing body of `loadGeneric`). */
  method ParseLines(lines: seq<string>, delim: char, parse: string -> Option<real>)
    returns (r: Result<Table, LoadError>)
    ensures r == ParseTable(lines, delim, parse)
  {
    var h, headerLine := FindHeader(lines);
    if headerLine == [] {
      return Failure(EmptyHeader);
    }
    var firstColumnIsLabel, outLabels := ParseHeader(headerLine, delim);
    var outDatasets := ReadRows(lines, h + 1, delim, firstColumnIsLabel, parse);
    assert ParseTable(lines, delim, parse) == Assemble(outLabels, outDatasets);
    if outLabels == [] || outDatasets == [] {
      return Failure(NoData);
    }
    return Success(Table(outLabels, outDatasets));
  }

  /** Numbers as the values of a series. */
  function AsValues(xs: seq<real>): (vs: seq<Value>)
    ensures |vs| == |xs|
    ensures forall j :: 0 <= j < |xs| ==> vs[j] == Some(xs[j])
  {
    seq(|xs|, j requires 0 <= j < |xs| => Some(xs[j]))
  }

  /**
   * `line` is the row `name` followed by the tokens `ts`, joined by the
   * delimiter: none of them holds the delimiter or surrounding whitespace,
   * the name is not empty, and each token reads as the number at its place in `xs`.
   */
  predicate RenderedRow(line: string, name: string, ts: seq<string>, xs: seq<real>, delim: char,
                        parse: string -> Option<real>)
  {
    && line == Join([name] + ts, delim)
    && name != [] && delim !in name && Trim(name) == name
    && |ts| == |xs|
    && forall j :: 0 <= j < |ts| ==> delim !in ts[j] && Trim(ts[j]) == ts[j] && parse(ts[j]) == Some(xs[j])
  }

  /** Every body line is the rendering of its row. */
  predicate RenderedRows(body: seq<string>, names: seq<string>, tss: seq<seq<string>>, xss: seq<seq<real>>,
                         delim: char, parse: string -> Option<real>)
  {
    && |body| == |names| == |tss| == |xss|
    && forall k :: 0 <= k < |body| ==> RenderedRow(body[k], names[k], tss[k], xss[k], delim, parse)
  }

  /** The series a rendered body stands for. */
  function Expected(names: seq<string>, xss: seq<seq<real>>): (rows: seq<Series>)
    requires |names| == |xss|
    ensures |rows| == |names|
    ensures forall k :: 0 <= k < |names| ==> rows[k] == Series(names[k], AsValues(xss[k]))
  {
    seq(|names|, k requires 0 <= k < |names| => Series(names[k], AsValues(xss[k])))
  }

  /** A rendered row is not blank and reads back as its name and numbers. */
  lemma RenderedRowReadsBack(line: string, name: string, ts: seq<string>, xs: seq<real>, delim: char,
                             index: nat, parse: string -> Option<real>)
    requires RenderedRow(line, name, ts, xs, delim, parse)
    ensures !IsBlank(line)
    ensures RowOf(line, delim, true, index, parse) == Series(name, AsValues(xs))
  {
    JoinStart([name] + ts, delim);
    RowRoundTrip(name, ts, xs, delim, index, parse);
  }

  /** Rendered rows, read with a label column, give back their names and numbers, in order. */
  lemma {:induction false} RowsReadBack(body: seq<string>, names: seq<string>, tss: seq<seq<string>>,
                                        xss: seq<seq<real>>, delim: char, parse: string -> Option<real>)
    requires RenderedRows(body, names, tss, xss, delim, parse)
    ensures Rows(body, delim, true, parse) == Expected(names, xss)
    decreases |body|
  {
    if body != [] {
      var n := |body| - 1;
      var prev := Rows(body[..n], delim, true, parse);
      RowsReadBack(body[..n], names[..n], tss[..n], xss[..n], delim, parse);
      RenderedRowReadsBack(body[n], names[n], tss[n], xss[n], delim, |prev| + 1, parse);
      ExpectedSnoc(names, xss);
    }
  }

  lemma ExpectedSnoc(names: seq<string>, xss: seq<seq<real>>)
    requires |names| == |xss| > 0
    ensures var n := |names| - 1;
      Expected(names, xss) == Expected(names[..n], xss[..n]) + [Series(names[n], AsValues(xss[n]))]
  {
    var n := |names| - 1;
    var a, b := Expected(names, xss), Expected(names[..n], xss[..n]) + [Series(names[n], AsValues(xss[n]))];
    forall k | 0 <= k < |a|
      ensures a[k] == b[k]
    {
      if k < n {
        assert b[k] == Expected(names[..n], xss[..n])[k];
      }
    }
  }

  /** "label" marks a label column. */
  lemma LabelIsMarker()
    ensures IsLabelMarker("label")
  {
    assert ToLower("label") == "label";
    assert ContainsFrom("label", "label", 0);
  }

  /** The header "label" followed by clean axis labels is its own trim and reads back as those labels. */
  lemma LabelHeaderReadsBack(line: string, labels: seq<string>, delim: char)
    requires labels != [] && delim !in "label"
    requires forall i :: 0 <= i < |labels| ==> labels[i] != [] && delim !in labels[i] && Trim(labels[i]) == labels[i]
    requires line == Join(["label"] + labels, delim)
    ensures !IsBlank(line) && Trim(line) == line
    ensures HeaderOf(line, delim) == Header(true, labels)
  {
    var ps := ["label"] + labels;
    forall j | 0 <= j < |ps|
      ensures ps[j] != [] && delim !in ps[j] && Trim(ps[j]) == ps[j]
    {
      if j > 0 {
        assert ps[j] == labels[j - 1];
      } else {
        TrimClean("label");
      }
    }
    JoinEnds(ps, delim);
    TrimClean(line);
    FieldsJoin(ps, delim);
    NonBlankTrimmedIdentity(ps);
    LabelIsMarker();
    assert ps[1..] == labels;
  }

  /**
   * A table written as a header "label" followed by the axis labels, then
   * one rendered row per series, parses back into exactly those labels and
   * series: the parse inverts the rendering.
   */
  lemma TableRoundTrip(lines: seq<string>, labels: seq<string>, names: seq<string>, tss: seq<seq<string>>,
                       xss: seq<seq<real>>, delim: char, parse: string -> Option<real>)
    requires labels != [] && names != [] && delim !in "label"
    requires forall i :: 0 <= i < |labels| ==> labels[i] != [] && delim !in labels[i] && Trim(labels[i]) == labels[i]
    requires |lines| >= 1 && lines[0] == Join(["label"] + labels, delim)
    requires RenderedRows(lines[1..], names, tss, xss, delim, parse)
    ensures ParseTable(lines, delim, parse) == Success(Table(labels, Expected(names, xss)))
  {
    LabelHeaderReadsBack(lines[0], labels, delim);
    FirstNonBlankIs(lines, 0);
    RowsReadBack(lines[1..], names, tss, xss, delim, parse);
    ParseTableFound(lines, delim, parse, 0, lines[0], true, labels, Expected(names, xss));
  }
}
