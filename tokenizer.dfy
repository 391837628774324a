/**
 * The two line splitters of ChartData.cpp. `SplitKeepEmpty` cuts a line at
 * every occurrence of a one-character delimiter and keeps empty fields;
 * `SplitSkipEmpty` trims those fields and drops the ones that end up empty.
 * `Fields` and `NonBlankTrimmed` are the specifications the two methods are
 * proved against; `Join` is the inverse of `Fields`.
 */
module Tokenizer {
  import opened Text

  /** The fields of `s` between occurrences of `d`, built one character at a time. */
  function Fields(s: string, d: char): (fs: seq<string>)
    ensures |fs| >= 1
    decreases |s|
  {
    if s == [] then [[]]
    else
      var init := Fields(s[..|s| - 1], d);
      var c := s[|s| - 1];
      if c == d then init + [[]]
      else init[..|init| - 1] + [init[|init| - 1] + [c]]
  }

  /** The fields glued back together with `d` between consecutive ones. */
  function Join(ps: seq<string>, d: char): string
    decreases |ps|
  {
    if |ps| == 0 then []
    else if |ps| == 1 then ps[0]
    else Join(ps[..|ps| - 1], d) + [d] + ps[|ps| - 1]
  }

  /** One field per delimiter occurrence, plus one. */
  lemma {:induction false} FieldsCount(s: string, d: char)
    ensures |Fields(s, d)| == multiset(s)[d] + 1
    decreases |s|
  {
    if s != [] {
      var n := |s| - 1;
      FieldsCount(s[..n], d);
      assert s == s[..n] + [s[n]];
      assert multiset(s) == multiset(s[..n]) + multiset{s[n]};
    }
  }

  /** No field contains the delimiter. */
  lemma {:induction false} FieldsAvoidDelimiter(s: string, d: char)
    ensures forall j :: 0 <= j < |Fields(s, d)| ==> d !in Fields(s, d)[j]
    decreases |s|
  {
    if s != [] {
      FieldsAvoidDelimiter(s[..|s| - 1], d);
    }
  }

  lemma JoinSnocChar(ps: seq<string>, p: string, c: char, d: char)
    requires |ps| >= 1
    ensures Join(ps[..|ps| - 1] + [ps[|ps| - 1] + [c]], d) == Join(ps, d) + [c]
  {
    var qs := ps[..|ps| - 1] + [ps[|ps| - 1] + [c]];
    if |ps| > 1 {
      assert qs[..|qs| - 1] == ps[..|ps| - 1];
    }
  }

  /** Joining the fields of a line gives the line back. */
  lemma {:induction false} JoinFields(s: string, d: char)
    ensures Join(Fields(s, d), d) == s
    decreases |s|
  {
    if s != [] {
      var n := |s| - 1;
      assert s == s[..n] + [s[n]];
      var init := Fields(s[..n], d);
      JoinFields(s[..n], d);
      if s[n] == d {
        assert (init + [[]])[..|init|] == init;
      } else {
        JoinSnocChar(init, init[|init| - 1], s[n], d);
      }
    }
  }

  /** A character other than the delimiter extends the last field. */
  lemma FieldsSnocChar(s: string, c: char, d: char)
    requires c != d
    ensures var f := Fields(s, d);
      Fields(s + [c], d) == f[..|f| - 1] + [f[|f| - 1] + [c]]
  {
    assert (s + [c])[..|s|] == s;
  }

  /** Appending delimiter-free text extends the last field. */
  lemma {:induction false} FieldsAppend(s: string, y: string, d: char)
    requires d !in y
    ensures var f := Fields(s, d);
      Fields(s + y, d) == f[..|f| - 1] + [f[|f| - 1] + y]
    decreases |y|
  {
    var f := Fields(s, d);
    if y == [] {
      assert s + y == s;
      assert f[|f| - 1] + y == f[|f| - 1];
      assert f[..|f| - 1] + [f[|f| - 1]] == f;
    } else {
      var m := |y| - 1;
      var init, c := y[..m], y[m];
      assert y == init + [c];
      assert s + y == (s + init) + [c];
      assert c in y;
      FieldsAppend(s, init, d);
      FieldsSnocChar(s + init, c, d);
      var g := f[..|f| - 1] + [f[|f| - 1] + init];
      assert g[..|g| - 1] == f[..|f| - 1];
      assert g[|g| - 1] + [c] == f[|f| - 1] + y;
    }
  }

  /** A trailing delimiter opens one more, empty, field. */
  lemma FieldsDelimiter(x: string, d: char)
    ensures Fields(x + [d], d) == Fields(x, d) + [[]]
  {
    assert (x + [d])[..|x|] == x;
  }

  /** A delimiter and a delimiter-free piece after some text add that piece as the last field. */
  lemma FieldsAfterDelimiter(x: string, last: string, d: char)
    requires d !in last
    ensures Fields(x + [d] + last, d) == Fields(x, d) + [last]
  {
    FieldsDelimiter(x, d);
    FieldsAppend(x + [d], last, d);
    var f := Fields(x, d) + [[]];
    assert f[..|f| - 1] == Fields(x, d);
    assert f[|f| - 1] + last == last;
  }

  /** Splitting a join of delimiter-free pieces gives the pieces back. */
  lemma {:induction false} FieldsJoin(ps: seq<string>, d: char)
    requires |ps| >= 1
    requires forall j :: 0 <= j < |ps| ==> d !in ps[j]
    ensures Fields(Join(ps, d), d) == ps
    decreases |ps|
  {
    if |ps| == 1 {
      FieldsAppend([], ps[0], d);
      assert [] + ps[0] == ps[0];
    } else {
      var init, last := ps[..|ps| - 1], ps[|ps| - 1];
      assert ps == init + [last];
      FieldsJoin(init, d);
      FieldsAfterDelimiter(Join(init, d), last, d);
    }
  }

  /** One more character of the line either closes the current field or extends it. */
  lemma FieldsPrefix(s: string, i: nat, start: nat, parts: seq<string>, d: char)
    requires start <= i < |s|
    requires Fields(s[..i], d) == parts + [s[start..i]]
    ensures s[i] == d ==> Fields(s[..i + 1], d) == (parts + [s[start..i]]) + [s[i + 1..i + 1]]
    ensures s[i] != d ==> Fields(s[..i + 1], d) == parts + [s[start..i + 1]]
  {
    assert s[..i + 1][..i] == s[..i];
    assert s[..i + 1][i] == s[i];
    var f := Fields(s[..i], d);
    assert f[..|f| - 1] == parts && f[|f| - 1] == s[start..i];
    assert s[i + 1..i + 1] == [];
    assert s[start..i + 1] == s[start..i] + [s[i]];
  }

  /** Splits `line` at every `delim`, keeping empty fields (ChartData.cpp, `splitKeepEmpty`). */
  method SplitKeepEmpty(line: string, delim: char) returns (parts: seq<string>)
    ensures parts == Fields(line, delim)
    ensures line == [] ==> parts == [[]]
  {
    parts := [];
    var start := 0;
    for i := 0 to |line|
      invariant 0 <= start <= i
      invariant Fields(line[..i], delim) == parts + [line[start..i]]
    {
      FieldsPrefix(line, i, start, parts, delim);
      if line[i] == delim {
        parts := parts + [line[start..i]];
        start := i + 1;
      }
    }
    assert line[..|line|] == line;
    parts := parts + [line[start..]];
  }

  /** What one field contributes to `NonBlankTrimmed`: its trim, unless that is empty. */
  function Kept(f: string): seq<string> {
    if Trim(f) == [] then [] else [Trim(f)]
  }

  /** The trimmed fields that are not empty, in their original order. */
  function NonBlankTrimmed(fs: seq<string>): seq<string>
    decreases |fs|
  {
    if fs == [] then [] else NonBlankTrimmed(fs[..|fs| - 1]) + Kept(fs[|fs| - 1])
  }

  lemma NonBlankTrimmedSnoc(fs: seq<string>, f: string)
    ensures NonBlankTrimmed(fs + [f]) == NonBlankTrimmed(fs) + Kept(f)
  {
    assert (fs + [f])[..|fs|] == fs;
  }

  /** Keeping the non-blank fields distributes over concatenation, so it keeps their order. */
  lemma {:induction false} NonBlankTrimmedAppend(fs: seq<string>, gs: seq<string>)
    ensures NonBlankTrimmed(fs + gs) == NonBlankTrimmed(fs) + NonBlankTrimmed(gs)
    decreases |gs|
  {
    if gs == [] {
      assert fs + gs == fs;
    } else {
      var m := |gs| - 1;
      var x := gs[m];
      assert fs + gs == (fs + gs[..m]) + [x];
      assert gs == gs[..m] + [x];
      NonBlankTrimmedSnoc(fs + gs[..m], x);
      NonBlankTrimmedAppend(fs, gs[..m]);
      NonBlankTrimmedSnoc(gs[..m], x);
    }
  }

  /** What `Kept` keeps is the non-empty trim of its field. */
  lemma KeptIsTrimmed(f: string)
    ensures forall t :: t in Kept(f) ==> t != [] && Trim(t) == t && t == Trim(f)
  {
    TrimIdempotent(f);
  }

  /** Every kept field is non-empty and already trimmed, and no more fields are kept than given. */
  lemma {:induction false} NonBlankTrimmedFields(fs: seq<string>)
    ensures |NonBlankTrimmed(fs)| <= |fs|
    ensures forall j :: 0 <= j < |NonBlankTrimmed(fs)| ==>
      NonBlankTrimmed(fs)[j] != [] && Trim(NonBlankTrimmed(fs)[j]) == NonBlankTrimmed(fs)[j]
    decreases |fs|
  {
    if fs != [] {
      var n := |fs| - 1;
      var prev, kept := NonBlankTrimmed(fs[..n]), Kept(fs[n]);
      var all := NonBlankTrimmed(fs);
      assert all == prev + kept;
      NonBlankTrimmedFields(fs[..n]);
      KeptIsTrimmed(fs[n]);
      forall j | 0 <= j < |all|
        ensures all[j] != [] && Trim(all[j]) == all[j]
      {
        if j >= |prev| {
          assert all[j] in kept;
        }
      }
    }
  }

  /** `t` is the trim of one of the fields `fs`. */
  predicate TrimOfSome(t: string, fs: seq<string>) {
    exists k :: 0 <= k < |fs| && t == Trim(fs[k])
  }

  /** Every kept field is the trim of some given field. */
  lemma {:induction false} NonBlankTrimmedOrigin(fs: seq<string>)
    ensures forall j :: 0 <= j < |NonBlankTrimmed(fs)| ==> TrimOfSome(NonBlankTrimmed(fs)[j], fs)
    decreases |fs|
  {
    if fs != [] {
      var n := |fs| - 1;
      var prev, kept := NonBlankTrimmed(fs[..n]), Kept(fs[n]);
      var all := NonBlankTrimmed(fs);
      assert all == prev + kept;
      NonBlankTrimmedOrigin(fs[..n]);
      forall j | 0 <= j < |all|
        ensures TrimOfSome(all[j], fs)
      {
        if j < |prev| {
          assert TrimOfSome(prev[j], fs[..n]);
          var k :| 0 <= k < n && prev[j] == Trim(fs[..n][k]);
          assert fs[..n][k] == fs[k];
        } else {
          assert kept == [Trim(fs[n])];
          assert all[j] == Trim(fs[n]);
        }
      }
    }
  }

  /** A line whose fields are all trimmed and non-empty is split the same way by both splitters. */
  lemma {:induction false} NonBlankTrimmedIdentity(fs: seq<string>)
    requires forall j :: 0 <= j < |fs| ==> fs[j] != [] && Trim(fs[j]) == fs[j]
    ensures NonBlankTrimmed(fs) == fs
    decreases |fs|
  {
    if fs != [] {
      var n := |fs| - 1;
      var init, last := fs[..n], fs[n];
      assert fs == init + [last];
      NonBlankTrimmedIdentity(init);
      assert Kept(last) == [last];
    }
  }

  lemma TrimIdempotent(s: string)
    ensures Trim(Trim(s)) == Trim(s)
  {
    var t := Trim(s);
    if t != [] {
      assert TrimStart(t) == t;
      assert TrimEnd(t) == t;
    }
  }

  lemma NonBlankTrimmedPrefix(fs: seq<string>, k: nat)
    requires k < |fs|
    ensures NonBlankTrimmed(fs[..k + 1]) == NonBlankTrimmed(fs[..k]) + Kept(fs[k])
  {
    assert fs[..k + 1] == fs[..k] + [fs[k]];
    NonBlankTrimmedSnoc(fs[..k], fs[k]);
  }

  /** Splits, trims, and drops empty fields (ChartData.cpp, `splitSkipEmpty`). */
  method SplitSkipEmpty(line: string, delim: char) returns (out: seq<string>)
    ensures out == NonBlankTrimmed(Fields(line, delim))
  {
    var raw := SplitKeepEmpty(line, delim);
    out := [];
    for k := 0 to |raw|
      invariant out == NonBlankTrimmed(raw[..k])
    {
      NonBlankTrimmedPrefix(raw, k);
      var s := Trim(raw[k]);
      if s != [] {
        out := out + [s];
      }
    }
    assert raw[..|raw|] == raw;
  }

  /** A join starts with the first piece's first character and ends with the last piece's last one. */
  lemma {:induction false} JoinEnds(ps: seq<string>, d: char)
    requires |ps| >= 1 && ps[0] != [] && ps[|ps| - 1] != []
    ensures Join(ps, d) != []
    ensures Join(ps, d)[0] == ps[0][0]
    ensures Join(ps, d)[|Join(ps, d)| - 1] == ps[|ps| - 1][|ps[|ps| - 1]| - 1]
    decreases |ps|
  {
    if |ps| > 1 {
      JoinStart(ps[..|ps| - 1], d);
    }
  }

  /** A join of at least one piece starts with the first piece's first character. */
  lemma {:induction false} JoinStart(ps: seq<string>, d: char)
    requires |ps| >= 1 && ps[0] != []
    ensures Join(ps, d) != [] && Join(ps, d)[0] == ps[0][0]
    decreases |ps|
  {
    if |ps| > 1 {
      JoinStart(ps[..|ps| - 1], d);
    }
  }
}
