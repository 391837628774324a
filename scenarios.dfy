/**
 * Worked examples: the labelled and unlabelled tables of three lines, their
 * axis ranges and their per-axis normalisation, with the number parser
 * reading the digits 1 to 4.
 */
module Scenarios {
  import opened Wrappers
  import opened Text
  import opened Tokenizer
  import opened Datasets
  import opened Ranges
  import opened Normalize
  import opened TableParser

  /** The number parser reads the digits used in the examples. */
  predicate ReadsDigits(parse: string -> Option<real>) {
    parse("1") == Some(1.0) && parse("2") == Some(2.0) && parse("3") == Some(3.0) && parse("4") == Some(4.0)
  }

  /** Three pieces joined with a delimiter. */
  lemma JoinThree(a: string, b: string, c: string, d: char)
    ensures Join([a, b, c], d) == a + [d] + b + [d] + c
  {
    assert [a, b, c][..2] == [a, b];
    assert [a, b][..1] == [a];
    assert Join([a, b], d) == a + [d] + b;
  }

  /** Three delimiter-free pieces joined with the delimiter split back into those pieces. */
  lemma FieldsThree(a: string, b: string, c: string, d: char)
    requires d !in a && d !in b && d !in c
    ensures Fields(a + [d] + b + [d] + c, d) == [a, b, c]
  {
    JoinThree(a, b, c, d);
    FieldsJoin([a, b, c], d);
  }

  /** Two non-blank body lines give two rows, numbered 1 and 2. */
  lemma TwoRows(body: seq<string>, delim: char, isLabel: bool, parse: string -> Option<real>, r1: Series, r2: Series)
    requires |body| == 2 && !IsBlank(body[0]) && !IsBlank(body[1])
    requires RowOf(body[0], delim, isLabel, 1, parse) == r1
    requires RowOf(body[1], delim, isLabel, 2, parse) == r2
    ensures Rows(body, delim, isLabel, parse) == [r1, r2]
  {
    var init := body[..1];
    assert init[..0] == [];
    assert Rows(init, delim, isLabel, parse) == [r1];
  }

  /** A table whose first line is not blank takes that line, trimmed, as its header. */
  lemma HeaderFirst(lines: seq<string>, delim: char, parse: string -> Option<real>, hd: Header, rows: seq<Series>)
    requires |lines| > 0 && !IsBlank(lines[0]) && HeaderOf(Trim(lines[0]), delim) == hd
    requires Rows(lines[1..], delim, hd.isLabel, parse) == rows
    ensures hd.labels == [] || rows == [] ==> ParseTable(lines, delim, parse) == Failure(NoData)
    ensures hd.labels != [] && rows != [] ==> ParseTable(lines, delim, parse) == Success(Table(hd.labels, rows))
  {
    FirstNonBlankIs(lines, 0);
  }

  /** A labelled row with two numeric tokens. */
  lemma LabelledRow(name: string, a: string, b: string, xa: real, xb: real, index: nat, parse: string -> Option<real>)
    requires ',' !in name && name != [] && !IsSpace(name[0]) && !IsSpace(name[|name| - 1])
    requires ',' !in a && a != [] && !IsSpace(a[0]) && !IsSpace(a[|a| - 1]) && parse(a) == Some(xa)
    requires ',' !in b && b != [] && !IsSpace(b[0]) && !IsSpace(b[|b| - 1]) && parse(b) == Some(xb)
    ensures RowOf(name + [','] + a + [','] + b, ',', true, index, parse) == Series(name, [Some(xa), Some(xb)])
  {
    TrimClean(name);
    TrimClean(a);
    TrimClean(b);
    assert [name, a, b] == [name] + [a, b];
    JoinThree(name, a, b, ',');
    RowRoundTrip(name, [a, b], [xa, xb], ',', index, parse);
  }

  /** A header starting with the "label" marker keeps the remaining fields as axis labels. */
  lemma HeaderExample()
    ensures HeaderOf("label,A,B", ',') == Header(true, ["A", "B"])
  {
    JoinThree("label", "A", "B", ',');
    assert ["label"] + ["A", "B"] == ["label", "A", "B"];
    LabelHeaderReadsBack("label,A,B", ["A", "B"], ',');
  }

  /** The two body rows of the labelled example, read with their names. */
  lemma LabelledBody(body: seq<string>, parse: string -> Option<real>)
    requires body == ["x,1,2", "y,3,4"]
    requires ReadsDigits(parse)
    ensures Rows(body, ',', true, parse) == [Series("x", [Some(1.0), Some(2.0)]), Series("y", [Some(3.0), Some(4.0)])]
  {
    assert !IsBlank(body[0]) by { assert !IsSpace(body[0][0]); }
    assert !IsBlank(body[1]) by { assert !IsSpace(body[1][0]); }
    assert body[0] == "x" + [','] + "1" + [','] + "2";
    assert body[1] == "y" + [','] + "3" + [','] + "4";
    LabelledRow("x", "1", "2", 1.0, 2.0, 1, parse);
    LabelledRow("y", "3", "4", 3.0, 4.0, 2, parse);
    TwoRows(body, ',', true, parse, Series("x", [Some(1.0), Some(2.0)]), Series("y", [Some(3.0), Some(4.0)]));
  }

  /** The labelled example table parses into axes A, B and series x, y. */
  lemma LabelledTable(lines: seq<string>, parse: string -> Option<real>)
    requires lines == ["label,A,B", "x,1,2", "y,3,4"]
    requires ReadsDigits(parse)
    ensures ParseTable(lines, ',', parse)
      == Success(Table(["A", "B"], [Series("x", [Some(1.0), Some(2.0)]), Series("y", [Some(3.0), Some(4.0)])]))
  {
    assert !IsBlank(lines[0]) by { assert !IsSpace(lines[0][0]); }
    TrimClean(lines[0]);
    HeaderExample();
    LabelledBody(lines[1..], parse);
    HeaderFirst(lines, ',', parse, Header(true, ["A", "B"]),
      [Series("x", [Some(1.0), Some(2.0)]), Series("y", [Some(3.0), Some(4.0)])]);
  }

  /** Two delimiter-free pieces joined with the delimiter split back into those pieces. */
  lemma FieldsTwo(a: string, b: string, d: char)
    requires d !in a && d !in b
    ensures Fields(a + [d] + b, d) == [a, b]
  {
    assert [a, b][..1] == [a];
    assert Join([a, b], d) == a + [d] + b;
    FieldsJoin([a, b], d);
  }

  /** An unlabelled row with two numeric tokens is named after its position. */
  lemma UnlabelledRow(a: string, b: string, xa: real, xb: real, index: nat, parse: string -> Option<real>)
    requires ',' !in a && a != [] && !IsSpace(a[0]) && !IsSpace(a[|a| - 1]) && parse(a) == Some(xa)
    requires ',' !in b && b != [] && !IsSpace(b[0]) && !IsSpace(b[|b| - 1]) && parse(b) == Some(xb)
    ensures RowOf(a + [','] + b, ',', false, index, parse) == Series(SeriesName(index), [Some(xa), Some(xb)])
  {
    FieldsTwo(a, b, ',');
    TrimClean(a);
    TrimClean(b);
    assert TrimAll([a, b]) == [a, b];
  }

  /** A header without the marker makes every field an axis label. */
  lemma UnlabelledHeader(line: string)
    requires line == "A,B"
    ensures HeaderOf(line, ',') == Header(false, ["A", "B"])
  {
    assert line == "A" + [','] + "B";
    FieldsTwo("A", "B", ',');
    TrimClean("A");
    TrimClean("B");
    ShortNotMarker("A");
    PlainHeader(line, ["A", "B"], ',');
  }

  /** A field shorter than every marker word is not a marker. */
  lemma ShortNotMarker(h: string)
    requires |h| < 4
    ensures !IsLabelMarker(h)
  {
    assert |ToLower(h)| == |h|;
  }

  /** A header of clean fields whose first is not a marker takes every field as an axis label. */
  lemma PlainHeader(line: string, fields: seq<string>, delim: char)
    requires fields != [] && !IsLabelMarker(fields[0])
    requires forall j :: 0 <= j < |fields| ==> fields[j] != [] && Trim(fields[j]) == fields[j]
    requires Fields(line, delim) == fields
    ensures HeaderOf(line, delim) == Header(false, fields)
  {
    NonBlankTrimmedIdentity(fields);
  }

  /** The two body rows of the unlabelled example, named after their positions. */
  lemma UnlabelledBody(body: seq<string>, parse: string -> Option<real>)
    requires body == ["1,2", "3,4"]
    requires ReadsDigits(parse)
    ensures Rows(body, ',', false, parse) == [Series("Series 1", [Some(1.0), Some(2.0)]), Series("Series 2", [Some(3.0), Some(4.0)])]
  {
    assert !IsBlank(body[0]) by { assert !IsSpace(body[0][0]); }
    assert !IsBlank(body[1]) by { assert !IsSpace(body[1][0]); }
    assert body[0] == "1" + [','] + "2";
    assert body[1] == "3" + [','] + "4";
    UnlabelledRow("1", "2", 1.0, 2.0, 1, parse);
    UnlabelledRow("3", "4", 3.0, 4.0, 2, parse);
    assert SeriesName(1) == "Series 1" && SeriesName(2) == "Series 2";
    TwoRows(body, ',', false, parse, Series("Series 1", [Some(1.0), Some(2.0)]), Series("Series 2", [Some(3.0), Some(4.0)]));
  }

  /** Without a label column, rows are named "Series 1", "Series 2", ... in order. */
  lemma UnlabelledTable(lines: seq<string>, parse: string -> Option<real>)
    requires lines == ["A,B", "1,2", "3,4"]
    requires ReadsDigits(parse)
    ensures ParseTable(lines, ',', parse)
      == Success(Table(["A", "B"], [Series("Series 1", [Some(1.0), Some(2.0)]), Series("Series 2", [Some(3.0), Some(4.0)])]))
  {
    assert !IsBlank(lines[0]) by { assert !IsSpace(lines[0][0]); }
    TrimClean(lines[0]);
    UnlabelledHeader(lines[0]);
    UnlabelledBody(lines[1..], parse);
    HeaderFirst(lines, ',', parse, Header(false, ["A", "B"]),
      [Series("Series 1", [Some(1.0), Some(2.0)]), Series("Series 2", [Some(3.0), Some(4.0)])]);
  }

  /** A token that is not a number is read as 0, and the row is kept. */
  lemma MalformedRow(line: string, parse: string -> Option<real>)
    requires line == "x,foo,2"
    requires parse("foo") == None && parse("2") == Some(2.0)
    ensures !IsBlank(line)
    ensures RowOf(line, ',', true, 1, parse) == Series("x", [Some(0.0), Some(2.0)])
  {
    assert !IsSpace(line[0]);
    assert line == "x" + [','] + "foo" + [','] + "2";
    FieldsThree("x", "foo", "2", ',');
    TrimClean("x");
    TrimClean("foo");
    TrimClean("2");
    var tokens := TrimAll(["x", "foo", "2"]);
    assert tokens == ["x", "foo", "2"];
    assert tokens[1..] == ["foo", "2"];
  }

  /** A malformed field does not fail the load: the table parses with 0 in its place. */
  lemma MalformedTable(lines: seq<string>, parse: string -> Option<real>)
    requires lines == ["label,A,B", "x,foo,2"]
    requires parse("foo") == None && parse("2") == Some(2.0)
    ensures ParseTable(lines, ',', parse) == Success(Table(["A", "B"], [Series("x", [Some(0.0), Some(2.0)])]))
  {
    assert !IsBlank(lines[0]) by { assert !IsSpace(lines[0][0]); }
    TrimClean(lines[0]);
    HeaderExample();
    var body := lines[1..];
    MalformedRow(body[0], parse);
    assert body[..0] == [];
    HeaderFirst(lines, ',', parse, Header(true, ["A", "B"]), [Series("x", [Some(0.0), Some(2.0)])]);
  }

  /** The axis ranges of the labelled example are A = (1, 3) and B = (2, 4). */
  lemma LabelledRanges(ds: seq<Series>)
    requires ds == [Series("x", [Some(1.0), Some(2.0)]), Series("y", [Some(3.0), Some(4.0)])]
    ensures AxisMins(2, ds) == [1.0, 2.0] && AxisMaxs(2, ds) == [3.0, 4.0]
  {
    var first := ds[..1];
    assert first[..0] == [] && first[0] == ds[0];
    assert AxisLow(first[..0], 0) == None && AxisHigh(first[..0], 0) == None;
    assert AxisLow(first[..0], 1) == None && AxisHigh(first[..0], 1) == None;
    assert Cell(ds[0], 0) == Some(1.0) && Cell(ds[0], 1) == Some(2.0);
    assert Cell(ds[1], 0) == Some(3.0) && Cell(ds[1], 1) == Some(4.0);
    assert AxisLow(first, 0) == Some(1.0) && AxisHigh(first, 0) == Some(1.0);
    assert AxisLow(first, 1) == Some(2.0) && AxisHigh(first, 1) == Some(2.0);
    assert AxisLow(ds, 0) == Some(1.0) && AxisHigh(ds, 0) == Some(3.0);
    assert AxisLow(ds, 1) == Some(2.0) && AxisHigh(ds, 1) == Some(4.0);
    assert AxisRange(ds, 0) == (1.0, 3.0);
    assert AxisRange(ds, 1) == (2.0, 4.0);
  }

  /**
   * Normalised per axis against its own axis ranges, row x becomes [0, 0] and
   * row y becomes [1, 1].
   */
  lemma LabelledNormalized(ds: seq<Series>)
    requires ds == [Series("x", [Some(1.0), Some(2.0)]), Series("y", [Some(3.0), Some(4.0)])]
    ensures NormalizeAll(2, ds, AxisMins(2, ds), AxisMaxs(2, ds))
      == [Series("x", [Some(0.0), Some(0.0)]), Series("y", [Some(1.0), Some(1.0)])]
  {
    LabelledRanges(ds);
    var mins, maxs := AxisMins(2, ds), AxisMaxs(2, ds);
    var out := NormalizeAll(2, ds, mins, maxs);
    assert Cell(ds[0], 0) == Some(mins[0]) && Cell(ds[0], 1) == Some(mins[1]);
    assert Cell(ds[1], 0) == Some(maxs[0]) && Cell(ds[1], 1) == Some(maxs[1]);
    NormalizeEndpoints(2, ds, mins, maxs, 0, 0);
    NormalizeEndpoints(2, ds, mins, maxs, 0, 1);
    NormalizeEndpoints(2, ds, mins, maxs, 1, 0);
    NormalizeEndpoints(2, ds, mins, maxs, 1, 1);
    assert out[0].data == [Some(0.0), Some(0.0)];
    assert out[1].data == [Some(1.0), Some(1.0)];
  }
}
