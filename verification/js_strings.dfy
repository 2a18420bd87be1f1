/**
 * The JavaScript string operations the application relies on: decimal
 * rendering of integers, `padStart(2, '0')`, `trim`, `split`, `indexOf`,
 * `lastIndexOf`, `startsWith`, `includes` and ASCII lower-casing.
 */
module JsStrings {

  // ---------------------------------------------------------------------------
  // Decimal digits
  // ---------------------------------------------------------------------------

  predicate IsDigit(c: char) {
    '0' <= c <= '9'
  }

  predicate AllDigits(s: string) {
    forall i :: 0 <= i < |s| ==> IsDigit(s[i])
  }

  function DigitValue(c: char): nat
    requires IsDigit(c)
  {
    c as int - '0' as int
  }

  function DigitChar(d: nat): (c: char)
    requires d < 10
    ensures IsDigit(c) && DigitValue(c) == d
  {
    ('0' as int + d) as char
  }

  /** The number a string of decimal digits denotes, most significant digit first. */
  function ParseDigits(s: string): nat
    requires AllDigits(s)
  {
    if |s| == 0 then 0 else ParseDigits(s[..|s| - 1]) * 10 + DigitValue(s[|s| - 1])
  }

  function Pow10(n: nat): nat {
    if n == 0 then 1 else 10 * Pow10(n - 1)
  }

  /** `n` digits denote a number below `10^n`. */
  lemma {:induction false} DigitsBound(s: string)
    requires AllDigits(s)
    ensures ParseDigits(s) < Pow10(|s|)
    decreases |s|
  {
    if |s| > 0 {
      DigitsBound(s[..|s| - 1]);
    }
  }

  /** A decimal numeral as JavaScript prints a non-negative integer: no leading zero. */
  predicate Canonical(s: string) {
    |s| >= 1 && AllDigits(s) && (|s| > 1 ==> s[0] != '0')
  }

  /** `n.toString()` for a non-negative integer `n`. */
  function NatToString(n: nat): (s: string)
    ensures Canonical(s)
    ensures ParseDigits(s) == n
    decreases n
  {
    if n < 10 then
      [DigitChar(n)]
    else
      var prefix := NatToString(n / 10);
      var s := prefix + [DigitChar(n % 10)];
      assert s[..|s| - 1] == prefix;
      s
  }

  /** `i.toString()` (or `${i}`) for an integer-valued JavaScript number. */
  function IntToString(i: int): string {
    if i < 0 then "-" + NatToString(-i) else NatToString(i)
  }

  lemma {:induction false} LeadingDigitBound(s: string)
    requires |s| >= 1 && AllDigits(s)
    ensures ParseDigits(s) >= DigitValue(s[0])
    decreases |s|
  {
    if |s| > 1 {
      var p := s[..|s| - 1];
      assert p[0] == s[0];
      LeadingDigitBound(p);
    }
  }

  /** Every canonical numeral is what `toString` prints for the number it denotes. */
  lemma {:induction false} CanonicalRoundTrip(t: string)
    requires Canonical(t)
    ensures NatToString(ParseDigits(t)) == t
    decreases |t|
  {
    var n := ParseDigits(t);
    var c := t[|t| - 1];
    if |t| == 1 {
      assert t[..|t| - 1] == [];
      assert ParseDigits(t[..|t| - 1]) == 0;
      assert n == DigitValue(c);
      assert [DigitChar(n)] == t;
    } else {
      var p := t[..|t| - 1];
      assert p[0] == t[0];
      assert Canonical(p);
      LeadingDigitBound(p);
      assert ParseDigits(p) >= 1;
      assert n / 10 == ParseDigits(p) && n % 10 == DigitValue(c);
      CanonicalRoundTrip(p);
      assert t == p + [c];
    }
  }

  /** `n.toString().padStart(2, '0')`. */
  function Pad2(n: nat): (s: string)
    ensures AllDigits(s) && |s| >= 2
    ensures n < 100 ==> |s| == 2 && ParseDigits(s) == n
  {
    if n < 10 then
      var s := ['0'] + NatToString(n);
      assert s[..1] == ['0'];
      s
    else
      assert n < 100 ==> NatToString(n / 10) == [DigitChar(n / 10)];
      NatToString(n)
  }

  /** Two digits parsed and padded again give back the same two characters. */
  lemma Pad2RoundTrip(t: string)
    requires |t| == 2 && AllDigits(t)
    ensures Pad2(ParseDigits(t)) == t
  {
    assert t[..1] == [t[0]];
    if t[0] == '0' {
      assert t[..1][..0] == [];
      assert ParseDigits(t[..1]) == 0;
      assert ParseDigits(t) == DigitValue(t[1]);
      assert [DigitChar(ParseDigits(t))] == t[1..];
    } else {
      CanonicalRoundTrip(t);
      LeadingDigitBound(t);
    }
  }

  // ---------------------------------------------------------------------------
  // trim
  // ---------------------------------------------------------------------------

  /** The characters `String.prototype.trim` removes: WhiteSpace and LineTerminator of ECMA-262. */
  predicate IsJsWhitespace(c: char) {
    || c == '\t' || c == '\n' || c == '\U{000B}' || c == '\U{000C}' || c == '\r' || c == ' '
    || c == '\U{00A0}' || c == '\U{1680}' || ('\U{2000}' <= c <= '\U{200A}')
    || c == '\U{2028}' || c == '\U{2029}' || c == '\U{202F}' || c == '\U{205F}'
    || c == '\U{3000}' || c == '\U{FEFF}'
  }

  /** A string that `trim` reduces to the empty string. */
  predicate IsBlank(s: string) {
    forall i :: 0 <= i < |s| ==> IsJsWhitespace(s[i])
  }

  function TrimStart(s: string): (r: string)
    ensures |r| <= |s| && r == s[|s| - |r|..]
    ensures IsBlank(s[..|s| - |r|])
    ensures |r| > 0 ==> !IsJsWhitespace(r[0])
  {
    if |s| > 0 && IsJsWhitespace(s[0]) then
      var r := TrimStart(s[1..]);
      assert s[1..][..|s| - 1 - |r|] == s[1..|s| - |r|];
      r
    else
      s
  }

  function TrimEnd(s: string): (r: string)
    ensures |r| <= |s| && r == s[..|r|]
    ensures IsBlank(s[|r|..])
    ensures |r| > 0 ==> !IsJsWhitespace(r[|r| - 1])
  {
    if |s| > 0 && IsJsWhitespace(s[|s| - 1]) then
      var r := TrimEnd(s[..|s| - 1]);
      assert s[..|s| - 1][|r|..] + [s[|s| - 1]] == s[|r|..];
      r
    else
      s
  }

  lemma BlankConcat(a: string, b: string)
    requires IsBlank(a) && IsBlank(b)
    ensures IsBlank(a + b)
  {
  }

  /** `s.trim()`: the longest slice of `s` that neither starts nor ends with whitespace. */
  function Trim(s: string): (r: string)
    ensures r == "" <==> IsBlank(s)
    ensures |r| > 0 ==> !IsJsWhitespace(r[0]) && !IsJsWhitespace(r[|r| - 1])
  {
    var t := TrimStart(s);
    var r := TrimEnd(t);
    TrimFacts(s, t, r);
    r
  }

  lemma TrimFacts(s: string, t: string, r: string)
    requires t == TrimStart(s) && r == TrimEnd(t)
    ensures r == "" <==> IsBlank(s)
    ensures |r| > 0 ==> !IsJsWhitespace(r[0])
  {
    if r == "" {
      assert t[|r|..] == t;
      assert s == s[..|s| - |t|] + t;
      BlankConcat(s[..|s| - |t|], t);
    } else {
      assert r[0] == t[0];
      assert !IsBlank(s) by {
        assert s[|s| - |t|] == t[0];
      }
    }
  }

  /** Trimming a trimmed string changes nothing. */
  lemma TrimIdempotent(s: string)
    ensures Trim(Trim(s)) == Trim(s)
  {
    var r := Trim(s);
    if r != "" {
      assert TrimStart(r) == r;
      assert TrimEnd(r) == r;
    }
  }

  // ---------------------------------------------------------------------------
  // Searching
  // ---------------------------------------------------------------------------

  /** `sep` occurs in `s` starting at index `i`. */
  predicate OccursAt(s: string, sep: string, i: int) {
    0 <= i && i + |sep| <= |s| && s[i..i + |sep|] == sep
  }

  /** `s.indexOf(sep, from)`. */
  function IndexOfFrom(s: string, sep: string, from: nat): (r: int)
    requires from <= |s|
    ensures r == -1 || (from <= r && OccursAt(s, sep, r))
    ensures r == -1 ==> forall i :: from <= i ==> !OccursAt(s, sep, i)
    ensures r != -1 ==> forall i :: from <= i < r ==> !OccursAt(s, sep, i)
    decreases |s| - from
  {
    if OccursAt(s, sep, from) then from
    else if from == |s| then -1
    else IndexOfFrom(s, sep, from + 1)
  }

  /** `s.indexOf(sep)`: the first occurrence of `sep`, or -1. */
  function IndexOf(s: string, sep: string): int {
    IndexOfFrom(s, sep, 0)
  }

  /** `s.includes(sub)`. */
  predicate Includes(s: string, sub: string)
    ensures Includes(s, sub) <==> exists i :: OccursAt(s, sub, i)
  {
    IndexOf(s, sub) != -1
  }

  /** `s.startsWith(p)`. */
  predicate StartsWith(s: string, p: string) {
    |p| <= |s| && s[..|p|] == p
  }

  /** `s.lastIndexOf(c)` for a one-character search string. */
  function LastIndexOf(s: string, c: char): (r: int)
    ensures -1 <= r < |s|
    ensures r >= 0 ==> s[r] == c
    ensures forall j :: r < j < |s| ==> s[j] != c
  {
    if |s| == 0 then -1
    else if s[|s| - 1] == c then |s| - 1
    else LastIndexOf(s[..|s| - 1], c)
  }

  /** `s.substring(s.lastIndexOf(c) + 1)`: the part after the last `c`, or all of `s`. */
  function AfterLast(s: string, c: char): (r: string)
    ensures forall j :: 0 <= j < |r| ==> r[j] != c
    ensures |r| <= |s| && r == s[|s| - |r|..]
    ensures |r| < |s| ==> s[|s| - |r| - 1] == c
  {
    s[LastIndexOf(s, c) + 1..]
  }

  // ---------------------------------------------------------------------------
  // split
  // ---------------------------------------------------------------------------

  /** `parts.join(sep)`. */
  function Join(parts: seq<string>, sep: string): string {
    if |parts| == 0 then ""
    else if |parts| == 1 then parts[0]
    else parts[0] + sep + Join(parts[1..], sep)
  }

  lemma PrefixHasNoEarlierOccurrence(s: string, sep: string, k: int, j: int)
    requires 0 <= k <= |s|
    requires OccursAt(s[..k], sep, j)
    ensures OccursAt(s, sep, j) && j + |sep| <= k
  {
    assert s[..k][j..j + |sep|] == s[j..j + |sep|];
  }

  /**
   * `s.split(sep)` for a non-empty separator: the pieces between the
   * successive leftmost non-overlapping occurrences of `sep`.
   */
  function Split(s: string, sep: string): (parts: seq<string>)
    requires |sep| > 0
    ensures |parts| >= 1
    ensures Join(parts, sep) == s
    ensures forall k, i :: 0 <= k < |parts| ==> !OccursAt(parts[k], sep, i)
    decreases |s|
  {
    var i := IndexOf(s, sep);
    if i == -1 then
      [s]
    else
      var head := s[..i];
      var rest := Split(s[i + |sep|..], sep);
      var parts := [head] + rest;
      assert parts[1..] == rest;
      assert s == head + sep + s[i + |sep|..] by {
        assert s == s[..i] + s[i..i + |sep|] + s[i + |sep|..];
      }
      assert forall j :: !OccursAt(head, sep, j) by {
        forall j | OccursAt(head, sep, j)
          ensures false
        {
          PrefixHasNoEarlierOccurrence(s, sep, i, j);
        }
      }
      parts
  }

  /** A string without the separator splits into itself alone. */
  lemma SplitWithout(s: string, sep: string)
    requires |sep| > 0 && forall i :: !OccursAt(s, sep, i)
    ensures Split(s, sep) == [s]
  {
  }

  /** When the first occurrence of `sep` follows `a`, the first piece is `a` and the rest is the split of `b`. */
  lemma SplitAtFirst(a: string, sep: string, b: string)
    requires |sep| > 0
    requires forall i :: 0 <= i < |a| ==> !OccursAt(a + sep + b, sep, i)
    ensures Split(a + sep + b, sep) == [a] + Split(b, sep)
  {
    var s := a + sep + b;
    assert OccursAt(s, sep, |a|) by {
      assert s[|a|..|a| + |sep|] == sep;
    }
    assert IndexOf(s, sep) == |a|;
    assert s[..|a|] == a;
    assert s[|a| + |sep|..] == b;
  }

  // ---------------------------------------------------------------------------
  // toLowerCase
  // ---------------------------------------------------------------------------

  function LowerChar(c: char): char {
    if 'A' <= c <= 'Z' then (c as int + 32) as char else c
  }

  /**
   * `s.toLowerCase()` on ASCII letters. No other code point lower-cases to one
   * of the ASCII letters of "processing", "running", "completed" or "error",
   * so comparisons against those words are unaffected by the restriction.
   */
  function ToLowerAscii(s: string): (r: string)
    ensures |r| == |s|
    ensures forall i :: 0 <= i < |s| ==> r[i] == LowerChar(s[i])
  {
    seq(|s|, i requires 0 <= i < |s| => LowerChar(s[i]))
  }

  /** Lower-casing twice is lower-casing once. */
  lemma ToLowerIdempotent(s: string)
    ensures ToLowerAscii(ToLowerAscii(s)) == ToLowerAscii(s)
  {
  }
}
