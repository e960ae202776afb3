/**
 * The few operations on Python `str` values that the add-on relies on:
 * lower-casing, single-character replacement, `find`/`in`, decimal
 * formatting of integers and `int()` parsing.
 */
module Strings {
  import opened Wrappers

  /** `str.lower()` restricted to ASCII letters. */
  function LowerChar(c: char): char {
    if 'A' <= c <= 'Z' then (c as int + 32) as char else c
  }

  function Lower(s: string): (r: string)
    ensures |r| == |s|
    ensures forall i :: 0 <= i < |s| ==> r[i] == LowerChar(s[i])
  {
    if s == [] then [] else [LowerChar(s[0])] + Lower(s[1..])
  }

  /** `s.replace(a, b)` for one-character strings `a` and `b`. */
  function ReplaceChar(s: string, a: char, b: char): (r: string)
    ensures |r| == |s|
    ensures forall i :: 0 <= i < |s| ==> r[i] == if s[i] == a then b else s[i]
  {
    if s == [] then [] else [if s[0] == a then b else s[0]] + ReplaceChar(s[1..], a, b)
  }

  /** `pat` occurs in `s` starting at index `i`. */
  ghost predicate OccursAt(s: string, pat: string, i: int) {
    0 <= i && i + |pat| <= |s| && s[i..i + |pat|] == pat
  }

  /** `s.find(pat, start)`: the first index at or after `start` where `pat` occurs, or -1. */
  function FindFrom(s: string, pat: string, start: nat): (r: int)
    ensures r == -1 || (start <= r && OccursAt(s, pat, r))
    ensures r >= 0 ==> forall j :: start <= j < r ==> !OccursAt(s, pat, j)
    ensures r == -1 ==> forall j :: start <= j ==> !OccursAt(s, pat, j)
    decreases |s| - start
  {
    if start + |pat| > |s| then -1
    else if s[start..start + |pat|] == pat then start
    else FindFrom(s, pat, start + 1)
  }

  /** `s.find(pat)`. */
  function Find(s: string, pat: string): (r: int)
    ensures r == -1 || OccursAt(s, pat, r)
    ensures r >= 0 ==> forall j :: 0 <= j < r ==> !OccursAt(s, pat, j)
    ensures r == -1 <==> forall j :: !OccursAt(s, pat, j)
  {
    FindFrom(s, pat, 0)
  }

  /** Python's `pat in s` for strings. */
  function Contains(s: string, pat: string): (b: bool)
    ensures b <==> exists j :: OccursAt(s, pat, j)
  {
    Find(s, pat) >= 0
  }

  predicate IsDigit(c: char) { '0' <= c <= '9' }

  predicate AllDigits(s: string) { forall i :: 0 <= i < |s| ==> IsDigit(s[i]) }

  function DigitChar(d: nat): (c: char)
    requires d < 10
    ensures IsDigit(c)
  {
    ('0' as int + d) as char
  }

  /** The decimal digits of `n`, as `str(n)` and f-strings print a non-negative int. */
  function NatToString(n: nat): (s: string)
    ensures |s| > 0 && AllDigits(s)
  {
    if n < 10 then [DigitChar(n)] else NatToString(n / 10) + [DigitChar(n % 10)]
  }

  /** The value of a string of decimal digits (leading zeros allowed). */
  function ParseDigits(s: string): nat
    requires AllDigits(s)
  {
    if s == [] then 0 else ParseDigits(s[..|s| - 1]) * 10 + (s[|s| - 1] as int - '0' as int)
  }

  /** The ASCII characters `str.strip()` removes: space, tab to carriage return, and 0x1C to 0x1F. */
  predicate IsSpace(c: char) { c == ' ' || 9 <= c as int <= 13 || 28 <= c as int <= 31 }

  function TrimLeft(s: string): string
  {
    if s != [] && IsSpace(s[0]) then TrimLeft(s[1..]) else s
  }

  function TrimRight(s: string): string
  {
    if s != [] && IsSpace(s[|s| - 1]) then TrimRight(s[..|s| - 1]) else s
  }

  /** `s.strip()` for ASCII white space. */
  function Strip(s: string): string {
    TrimRight(TrimLeft(s))
  }

  /** Digits with single underscores between them, as an integer literal may group them. */
  predicate GroupedDigits(s: string) {
    && |s| > 0 && IsDigit(s[0]) && IsDigit(s[|s| - 1])
    && (forall i :: 0 <= i < |s| ==> IsDigit(s[i]) || s[i] == '_')
    && !DoubleUnderscore(s)
  }

  /** Some underscore is followed by another. */
  predicate DoubleUnderscore(s: string) {
    |s| >= 2 && ((s[0] == '_' && s[1] == '_') || DoubleUnderscore(s[1..]))
  }

  /** A plain digit string is grouped, and has nothing to drop. */
  lemma {:induction false} DigitsGrouped(s: string)
    requires |s| > 0 && AllDigits(s)
    ensures GroupedDigits(s) && DropUnderscores(s) == s
  {
    NoUnderscorePairs(s);
  }

  lemma {:induction false} NoUnderscorePairs(s: string)
    requires AllDigits(s)
    ensures !DoubleUnderscore(s)
  {
    if |s| >= 2 {
      NoUnderscorePairs(s[1..]);
    }
  }

  /** The digits of a grouped digit string, underscores removed. */
  function DropUnderscores(s: string): (r: string)
    requires forall i :: 0 <= i < |s| ==> IsDigit(s[i]) || s[i] == '_'
    ensures AllDigits(r) && |r| <= |s|
    ensures AllDigits(s) ==> r == s
  {
    if s == [] then []
    else if s[0] == '_' then DropUnderscores(s[1..])
    else [s[0]] + DropUnderscores(s[1..])
  }

  /** The value of grouped digits, or None when they are not. */
  function ParseUnsigned(body: string): (r: Option<nat>)
    ensures r.Some? <==> GroupedDigits(body)
  {
    if GroupedDigits(body) then Some(ParseDigits(DropUnderscores(body))) else None
  }

  /** An optional `+` or `-` before grouped digits. */
  function ParseSigned(t: string): Option<int> {
    var signed := |t| > 0 && (t[0] == '-' || t[0] == '+');
    match ParseUnsigned(if signed then t[1..] else t)
    case Some(v) => Some(if signed && t[0] == '-' then -(v as int) else v as int)
    case None => None
  }

  /**
   * Python's `int(s)` for ASCII input: surrounding white space, an optional
   * sign, then at least one decimal digit, with single underscores allowed
   * between digits; anything else raises ValueError, modelled as None.
   */
  function ParseInt(s: string): Option<int> {
    ParseSigned(Strip(s))
  }

  /** White space around a number changes nothing: `int(" 2 ") == 2`. */
  lemma ParseIntPadded(n: nat, left: string, right: string)
    requires forall i :: 0 <= i < |left| ==> IsSpace(left[i])
    requires forall i :: 0 <= i < |right| ==> IsSpace(right[i])
    ensures ParseInt(left + NatToString(n) + right) == Some(n)
  {
    ParseNatToString(n);
    ParsePaddedDigits(left, NatToString(n), right);
  }

  /** A minus sign in front negates: `int(" -2") == -2`. */
  lemma ParseIntNegative(n: nat, left: string, right: string)
    requires forall i :: 0 <= i < |left| ==> IsSpace(left[i])
    requires forall i :: 0 <= i < |right| ==> IsSpace(right[i])
    ensures ParseInt(left + "-" + NatToString(n) + right) == Some(-(n as int))
  {
    var d := NatToString(n);
    ParseNatToString(n);
    ParseUnsignedDigits(d);
    ParsePaddedNegative(left, d, right, n);
  }

  lemma ParsePaddedDigits(left: string, d: string, right: string)
    requires forall i :: 0 <= i < |left| ==> IsSpace(left[i])
    requires forall i :: 0 <= i < |right| ==> IsSpace(right[i])
    requires |d| > 0 && AllDigits(d)
    ensures ParseInt(left + d + right) == Some(ParseDigits(d))
  {
    StripPadded(left, d, right);
    ParseStripped(left + d + right, d);
  }

  lemma ParsePaddedNegative(left: string, d: string, right: string, v: nat)
    requires forall i :: 0 <= i < |left| ==> IsSpace(left[i])
    requires forall i :: 0 <= i < |right| ==> IsSpace(right[i])
    requires d != [] && !IsSpace(d[|d| - 1]) && ParseUnsigned(d) == Some(v)
    ensures ParseInt(left + "-" + d + right) == Some(-(v as int))
  {
    var x := left + "-" + d + right;
    var m := ['-'] + d;
    assert m[|m| - 1] == d[|d| - 1];
    StripPadded(left, m, right);
    assert x == left + m + right;
    ParseStrippedNegative(x, d, v);
  }

  /** The padding is what `strip()` removes. */
  lemma StripPadded(left: string, s: string, right: string)
    requires forall i :: 0 <= i < |left| ==> IsSpace(left[i])
    requires forall i :: 0 <= i < |right| ==> IsSpace(right[i])
    requires s != [] && !IsSpace(s[0]) && !IsSpace(s[|s| - 1])
    ensures Strip(left + s + right) == s
  {
    assert left + s + right == left + (s + right);
    TrimLeftSpaces(left, s + right);
    TrimRightSpaces(s, right);
  }

  /** A string that strips to a digit string parses to its value. */
  lemma ParseStripped(x: string, t: string)
    requires Strip(x) == t && |t| > 0 && AllDigits(t)
    ensures ParseInt(x) == Some(ParseDigits(t))
  {
    DigitsGrouped(t);
    assert ParseUnsigned(t) == Some(ParseDigits(t));
  }

  /** A string that strips to a minus sign and digits parses to their negated value. */
  lemma ParseStrippedNegative(x: string, d: string, v: nat)
    requires Strip(x) == ['-'] + d && ParseUnsigned(d) == Some(v)
    ensures ParseInt(x) == Some(-(v as int))
  {
    var t := ['-'] + d;
    assert t[1..] == d;
  }

  lemma ParseUnsignedDigits(d: string)
    requires |d| > 0 && AllDigits(d)
    ensures ParseUnsigned(d) == Some(ParseDigits(d))
  {
    DigitsGrouped(d);
  }

  lemma {:induction false} TrimLeftSpaces(left: string, s: string)
    requires forall i :: 0 <= i < |left| ==> IsSpace(left[i])
    requires s != [] && !IsSpace(s[0])
    ensures TrimLeft(left + s) == s
  {
    if left != [] {
      assert (left + s)[1..] == left[1..] + s;
      TrimLeftSpaces(left[1..], s);
    }
  }

  lemma {:induction false} TrimRightSpaces(s: string, right: string)
    requires forall i :: 0 <= i < |right| ==> IsSpace(right[i])
    requires s != [] && !IsSpace(s[|s| - 1])
    ensures TrimRight(s + right) == s
  {
    if right != [] {
      assert (s + right)[..|s + right| - 1] == s + right[..|right| - 1];
      TrimRightSpaces(s, right[..|right| - 1]);
    }
  }

  /** Underscores between digit groups are ignored: `int("1_0") == 10`. */
  lemma GroupedExample()
    ensures ParseInt("1_0") == Some(10)
  {
    var s := "1_0";
    assert Strip(s) == s by {
      TrimLeftSpaces([], s);
      TrimRightSpaces(s, []);
    }
    assert DropUnderscores(s[2..]) == "0";
    assert DropUnderscores(s[1..]) == "0";
    assert DropUnderscores(s) == "10";
    assert ParseDigits("10") == 10 by {
      assert "10"[..1] == "1";
    }
  }

  /** Doubled, leading or trailing underscores are refused. */
  lemma BadGroupingRefused()
    ensures ParseInt("1__0").None? && ParseInt("_1").None? && ParseInt("1_").None?
  {
    NotGrouped("1__0");
    NotGrouped("_1");
    NotGrouped("1_");
  }

  lemma NotGrouped(s: string)
    requires s == "1__0" || s == "_1" || s == "1_"
    ensures ParseInt(s).None?
  {
    TrimLeftSpaces([], s);
    TrimRightSpaces(s, []);
    assert Strip(s) == s;
    assert s[0] != '+' && s[0] != '-';
    if s == "1__0" {
      var t := s[1..];
      assert t[0] == '_' && t[1] == '_';
      assert DoubleUnderscore(t);
    } else if s == "_1" {
      assert !IsDigit(s[0]);
    } else {
      assert !IsDigit(s[|s| - 1]);
    }
    assert !GroupedDigits(s);
  }

  function Zeros(k: nat): (z: string)
    ensures |z| == k && AllDigits(z)
  {
    if k == 0 then [] else ['0'] + Zeros(k - 1)
  }

  /** Left-pads `s` with zeros to width `w`, as the format spec `0>w` does. */
  function ZeroPad(s: string, w: nat): (r: string)
    ensures AllDigits(s) ==> AllDigits(r)
  {
    if |s| >= w then s else Zeros(w - |s|) + s
  }

  /** Parsing the decimal form of `n` gives `n` back. */
  lemma {:induction false} ParseNatToString(n: nat)
    ensures ParseDigits(NatToString(n)) == n
  {
    if n >= 10 {
      var s := NatToString(n);
      assert s[..|s| - 1] == NatToString(n / 10);
      ParseNatToString(n / 10);
    }
  }

  /** `int(str(n)) == n` for every non-negative `n`. */
  lemma IntOfNatToString(n: nat)
    ensures ParseInt(NatToString(n)) == Some(n)
  {
    ParseNatToString(n);
    ParsePaddedDigits([], NatToString(n), []);
    assert [] + NatToString(n) + [] == NatToString(n);
  }

  /** Distinct numbers have distinct decimal forms. */
  lemma NatToStringInjective(m: nat, n: nat)
    requires NatToString(m) == NatToString(n)
    ensures m == n
  {
    ParseNatToString(m);
    ParseNatToString(n);
  }

  /** A leading zero does not change the value of a digit string. */
  lemma {:induction false} ParseLeadingZero(s: string)
    requires AllDigits(s)
    ensures ParseDigits(['0'] + s) == ParseDigits(s)
  {
    var t := ['0'] + s;
    if s != [] {
      assert t[..|t| - 1] == ['0'] + s[..|s| - 1];
      ParseLeadingZero(s[..|s| - 1]);
    }
  }

  lemma {:induction false} ParseZeros(k: nat, s: string)
    requires AllDigits(s)
    ensures ParseDigits(Zeros(k) + s) == ParseDigits(s)
  {
    if k > 0 {
      var rest := Zeros(k - 1) + s;
      assert AllDigits(rest);
      assert Zeros(k) + s == ['0'] + rest;
      ParseLeadingZero(rest);
      ParseZeros(k - 1, s);
    } else {
      assert Zeros(k) + s == s;
    }
  }

  /** Zero-padding keeps the value: `int(f"{n:0>w}") == n`. */
  lemma ParseZeroPad(n: nat, w: nat)
    ensures ParseDigits(ZeroPad(NatToString(n), w)) == n
  {
    ParseNatToString(n);
    var s := NatToString(n);
    if |s| < w { ParseZeros(w - |s|, s); }
  }
}
