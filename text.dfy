/**
 * The few string operations the chart loader relies on: whitespace trimming,
 * ASCII lower-casing, substring and suffix tests, and decimal rendering of a
 * counter. Strings are sequences of characters; only ASCII whitespace and
 * ASCII letters are given special meaning.
 */
module Text {

  /** ASCII whitespace: space, and tab through carriage return. */
  predicate IsSpace(c: char) {
    c == ' ' || ('\t' <= c <= '\r')
  }

  /** Index of the first non-whitespace character at or after `i` (or `|s|`). */
  function Lead(s: string, i: nat): (k: nat)
    requires i <= |s|
    ensures i <= k <= |s|
    ensures k < |s| ==> !IsSpace(s[k])
    decreases |s| - i
  {
    if i < |s| && IsSpace(s[i]) then Lead(s, i + 1) else i
  }

  /** Everything skipped by `Lead` is whitespace. */
  lemma {:induction false} LeadSkipsSpace(s: string, i: nat)
    requires i <= |s|
    ensures forall j :: i <= j < Lead(s, i) ==> IsSpace(s[j])
    decreases |s| - i
  {
    if i < |s| && IsSpace(s[i]) {
      LeadSkipsSpace(s, i + 1);
    }
  }

  /** Drops leading whitespace. */
  function TrimStart(s: string): (r: string)
    ensures |r| <= |s|
    ensures r == [] || !IsSpace(r[0])
  {
    s[Lead(s, 0)..]
  }

  /** Only whitespace is dropped from the start. */
  lemma TrimStartDropsSpace(s: string)
    ensures forall j :: 0 <= j < |s| - |TrimStart(s)| ==> IsSpace(s[j])
  {
    LeadSkipsSpace(s, 0);
  }

  /** Index just past the last non-whitespace character before `i` (or 0). */
  function Trail(s: string, i: nat): (k: nat)
    requires i <= |s|
    ensures k <= i
    ensures k > 0 ==> !IsSpace(s[k - 1])
  {
    if i > 0 && IsSpace(s[i - 1]) then Trail(s, i - 1) else i
  }

  /** Everything skipped by `Trail` is whitespace. */
  lemma {:induction false} TrailSkipsSpace(s: string, i: nat)
    requires i <= |s|
    ensures forall j :: Trail(s, i) <= j < i ==> IsSpace(s[j])
  {
    if i > 0 && IsSpace(s[i - 1]) {
      TrailSkipsSpace(s, i - 1);
    }
  }

  /** Drops trailing whitespace. */
  function TrimEnd(s: string): (r: string)
    ensures |r| <= |s|
    ensures r == [] || !IsSpace(r[|r| - 1])
  {
    s[..Trail(s, |s|)]
  }

  /** Only whitespace is dropped from the end. */
  lemma TrimEndDropsSpace(s: string)
    ensures forall j :: |TrimEnd(s)| <= j < |s| ==> IsSpace(s[j])
  {
    TrailSkipsSpace(s, |s|);
  }

  /** Whitespace removed from both ends (the behaviour of `QString::trimmed`). */
  function Trim(s: string): (r: string)
    ensures |r| <= |s|
    ensures r == [] || (!IsSpace(r[0]) && !IsSpace(r[|r| - 1]))
  {
    TrimEnd(TrimStart(s))
  }

  /** A line that holds nothing but whitespace. */
  predicate IsBlank(s: string) {
    forall j :: 0 <= j < |s| ==> IsSpace(s[j])
  }

  /** Trimming leaves nothing exactly when the line is blank. */
  lemma TrimEmptyIffBlank(s: string)
    ensures Trim(s) == [] <==> IsBlank(s)
  {
    var t := TrimStart(s);
    TrimStartDropsSpace(s);
    TrimEndDropsSpace(t);
  }

  function LowerChar(c: char): (r: char)
    ensures 'A' <= c <= 'Z' ==> 'a' <= r <= 'z' && r as int == c as int + 32
    ensures !('A' <= c <= 'Z') ==> r == c
  {
    if 'A' <= c <= 'Z' then (c as int + 32) as char else c
  }

  /** ASCII lower-casing, character by character. */
  function ToLower(s: string): (r: string)
    ensures |r| == |s|
    ensures forall j :: 0 <= j < |s| ==> r[j] == LowerChar(s[j])
    ensures forall j :: 0 <= j < |s| ==>
      if 'A' <= s[j] <= 'Z' then r[j] as int == s[j] as int + 32 else r[j] == s[j]
  {
    seq(|s|, j requires 0 <= j < |s| => LowerChar(s[j]))
  }

  /** `p` occurs in `s` as a contiguous piece starting at `i` or later. */
  predicate ContainsFrom(s: string, p: string, i: nat)
    decreases |s| - i
  {
    i + |p| <= |s| && (s[i..i + |p|] == p || ContainsFrom(s, p, i + 1))
  }

  /** `p` occurs somewhere in `s` as a contiguous piece. */
  predicate Contains(s: string, p: string) {
    ContainsFrom(s, p, 0)
  }

  /** `s` ends with `suffix`, comparing letters without regard to ASCII case. */
  predicate EndsWithIgnoreCase(s: string, suffix: string) {
    |suffix| <= |s| && ToLower(s[|s| - |suffix|..]) == ToLower(suffix)
  }

  function Digit(d: nat): (c: char)
    requires d < 10
    ensures '0' <= c <= '9'
  {
    ('0' as int + d) as char
  }

  /** Decimal rendering of a natural number, without sign or leading zeros. */
  function DecimalString(n: nat): string {
    if n < 10 then [Digit(n)] else DecimalString(n / 10) + [Digit(n % 10)]
  }

  /** The rendering is a non-empty string of digits without a leading zero. */
  lemma {:induction false} DecimalStringIsNumeral(n: nat)
    ensures DecimalString(n) != []
    ensures forall j :: 0 <= j < |DecimalString(n)| ==> '0' <= DecimalString(n)[j] <= '9'
    ensures |DecimalString(n)| > 1 ==> DecimalString(n)[0] != '0'
  {
    if n >= 10 {
      DecimalStringIsNumeral(n / 10);
    }
  }

  /** The number a string of decimal digits denotes, most significant digit first. */
  function DigitsValue(s: string): int
    decreases |s|
  {
    if s == [] then 0 else 10 * DigitsValue(s[..|s| - 1]) + (s[|s| - 1] as int - '0' as int)
  }

  /** Reading the rendering back as a decimal numeral gives the number rendered. */
  lemma {:induction false} DecimalStringValue(n: nat)
    ensures DigitsValue(DecimalString(n)) == n
  {
    if n >= 10 {
      DecimalStringValue(n / 10);
      var s := DecimalString(n);
      assert s[..|s| - 1] == DecimalString(n / 10);
    }
  }

  /** A string that neither starts nor ends with whitespace is its own trim. */
  lemma TrimClean(s: string)
    requires s != [] && !IsSpace(s[0]) && !IsSpace(s[|s| - 1])
    ensures Trim(s) == s
  {
  }
}
