/**
 * String helpers shared by the scheduler and the statistics model:
 * Python's `sub in s`, `sep.join(...)`, decimal formatting and parsing of
 * non-negative integers, zero padding and ASCII whitespace stripping.
 */
module Strings {

  // ---------------------------------------------------------------------
  // Substring test (`p in s`)
  // ---------------------------------------------------------------------

  /** `p` occurs in `s` starting at index `i`. */
  predicate MatchAt(s: string, p: string, i: int) {
    0 <= i && i + |p| <= |s| && s[i..i + |p|] == p
  }

  /** Python's `p in s` for strings. */
  predicate Contains(s: string, p: string)
    decreases |s|
  {
    p <= s || (|s| > 0 && Contains(s[1..], p))
  }

  lemma {:induction false} MatchAtContains(s: string, p: string, i: int)
    requires MatchAt(s, p, i)
    ensures Contains(s, p)
    decreases i
  {
    if i == 0 {
      assert s[..|p|] == p;
    } else {
      assert s[1..][i - 1..i - 1 + |p|] == s[i..i + |p|];
      MatchAtContains(s[1..], p, i - 1);
    }
  }

  lemma {:induction false} ContainsMatchAt(s: string, p: string) returns (i: int)
    requires Contains(s, p)
    ensures MatchAt(s, p, i)
    decreases |s|
  {
    if p <= s {
      i := 0;
      assert s[0..|p|] == p;
    } else {
      var j := ContainsMatchAt(s[1..], p);
      i := j + 1;
      assert s[i..i + |p|] == s[1..][j..j + |p|];
    }
  }

  /** `Contains` agrees with the index-based reading of `p in s`. */
  lemma ContainsIff(s: string, p: string)
    ensures Contains(s, p) <==> exists i :: MatchAt(s, p, i)
  {
    if Contains(s, p) {
      var i := ContainsMatchAt(s, p);
    }
    if exists i :: MatchAt(s, p, i) {
      var i :| MatchAt(s, p, i);
      MatchAtContains(s, p, i);
    }
  }

  // ---------------------------------------------------------------------
  // Joining lines (`"\n".join(lines)`)
  // ---------------------------------------------------------------------

  function Join(lines: seq<string>, sep: string): string {
    if |lines| == 0 then ""
    else if |lines| == 1 then lines[0]
    else lines[0] + sep + Join(lines[1..], sep)
  }

  /** A newline-free pattern occurs in `a + "\n" + b` exactly when it occurs in `a` or in `b`. */
  lemma {:induction false} ContainsAcrossNewline(a: string, b: string, p: string)
    requires '\n' !in p
    ensures Contains(a + "\n" + b, p) <==> Contains(a, p) || Contains(b, p)
  {
    var ab := a + "\n" + b;
    if Contains(ab, p) {
      var i := ContainsMatchAt(ab, p);
      assert forall j :: i <= j < i + |p| ==> ab[j] == p[j - i];
      assert ab[|a|] == '\n';
      if i + |p| <= |a| {
        assert a[i..i + |p|] == ab[i..i + |p|];
        MatchAtContains(a, p, i);
      } else if i >= |a| + 1 {
        assert ab[|a| + 1..] == b;
        assert b[i - |a| - 1..i - |a| - 1 + |p|] == ab[i..i + |p|];
        MatchAtContains(b, p, i - |a| - 1);
      } else {
        assert false;
      }
    }
    if Contains(a, p) {
      var i := ContainsMatchAt(a, p);
      assert ab[i..i + |p|] == a[i..i + |p|];
      MatchAtContains(ab, p, i);
    } else if Contains(b, p) {
      var i := ContainsMatchAt(b, p);
      assert ab[|a| + 1..] == b;
      assert ab[i + |a| + 1..i + |a| + 1 + |p|] == ab[|a| + 1..][i..i + |p|];
      MatchAtContains(ab, p, i + |a| + 1);
    }
  }

  /** A non-empty, newline-free pattern occurs in the newline-joined lines exactly when one line holds it. */
  lemma {:induction false} ContainsJoin(lines: seq<string>, p: string)
    requires |p| > 0 && '\n' !in p
    ensures Contains(Join(lines, "\n"), p) <==> exists k :: 0 <= k < |lines| && Contains(lines[k], p)
    decreases |lines|
  {
    if |lines| > 1 {
      ContainsAcrossNewline(lines[0], Join(lines[1..], "\n"), p);
      ContainsJoin(lines[1..], p);
      if exists k :: 0 <= k < |lines| && Contains(lines[k], p) {
        var k :| 0 <= k < |lines| && Contains(lines[k], p);
        if k > 0 {
          assert lines[1..][k - 1] == lines[k];
        }
      }
      if exists k :: 0 <= k < |lines| - 1 && Contains(lines[1..][k], p) {
        var k :| 0 <= k < |lines| - 1 && Contains(lines[1..][k], p);
        assert lines[k + 1] == lines[1..][k];
      }
    }
  }

  // ---------------------------------------------------------------------
  // Decimal digits
  // ---------------------------------------------------------------------

  predicate IsDigit(c: char) {
    '0' <= c <= '9'
  }

  predicate AllDigits(s: string) {
    forall i :: 0 <= i < |s| ==> IsDigit(s[i])
  }

  function DigitValue(c: char): (d: nat)
    requires IsDigit(c)
    ensures d < 10
  {
    c as int - '0' as int
  }

  function DigitChar(d: nat): (c: char)
    requires d < 10
    ensures IsDigit(c) && DigitValue(c) == d
  {
    (d + '0' as int) as char
  }

  /** Python's `str(n)` for a non-negative integer: no leading zeros, "0" for zero. */
  function Digits(n: nat): (s: string)
    ensures |s| >= 1 && AllDigits(s)
    ensures s[0] == '0' <==> n == 0
    decreases n
  {
    if n < 10 then [DigitChar(n)] else Digits(n / 10) + [DigitChar(n % 10)]
  }

  /** The value of a string of decimal digits; leading zeros are allowed. */
  function ParseDigits(s: string): nat
    requires AllDigits(s)
    decreases |s|
  {
    if |s| == 0 then 0 else ParseDigits(s[..|s| - 1]) * 10 + DigitValue(s[|s| - 1])
  }

  /** Formatting then parsing gives the number back. */
  lemma {:induction false} ParseDigitsOfDigits(n: nat)
    ensures ParseDigits(Digits(n)) == n
    decreases n
  {
    if n >= 10 {
      var s := Digits(n);
      assert s[..|s| - 1] == Digits(n / 10);
      ParseDigitsOfDigits(n / 10);
    }
  }

  function Pow10(w: nat): (r: nat)
    ensures r >= 1
  {
    if w == 0 then 1 else 10 * Pow10(w - 1)
  }

  /** A number below 10^w has at most w digits (w >= 1). */
  lemma {:induction false} DigitsLength(n: nat, w: nat)
    requires 1 <= w && n < Pow10(w)
    ensures |Digits(n)| <= w
    decreases n
  {
    if n >= 10 {
      assert n / 10 < Pow10(w - 1);
      DigitsLength(n / 10, w - 1);
    }
  }

  function Repeat(c: char, k: nat): (s: string)
    ensures |s| == k && forall i :: 0 <= i < k ==> s[i] == c
  {
    if k == 0 then "" else [c] + Repeat(c, k - 1)
  }

  /** Left-pads with '0' up to width `w`; a longer string is left as it is. */
  function ZeroPad(s: string, w: nat): (r: string)
    ensures |r| == if |s| < w then w else |s|
    ensures r[|r| - |s|..] == s
  {
    if |s| < w then Repeat('0', w - |s|) + s else s
  }

  lemma {:induction false} ParseZeros(k: nat)
    ensures AllDigits(Repeat('0', k)) && ParseDigits(Repeat('0', k)) == 0
    decreases k
  {
    if k > 0 {
      var z := Repeat('0', k);
      assert z[..k - 1] == Repeat('0', k - 1);
      ParseZeros(k - 1);
    }
  }

  /** Leading zeros do not change the parsed value. */
  lemma {:induction false} ParseLeadingZeros(k: nat, s: string)
    requires AllDigits(s)
    ensures AllDigits(Repeat('0', k) + s)
    ensures ParseDigits(Repeat('0', k) + s) == ParseDigits(s)
    decreases |s|
  {
    var z := Repeat('0', k);
    if |s| == 0 {
      assert z + s == z;
      ParseZeros(k);
    } else {
      var t := z + s;
      assert t[..|t| - 1] == z + s[..|s| - 1];
      ParseLeadingZeros(k, s[..|s| - 1]);
    }
  }

  /** Python's `f"{n:0{w}d}"`: the sign (if any) first, then zeros up to total width `w`. */
  function PadInt(n: int, w: nat): string {
    if n < 0 then "-" + ZeroPad(Digits(-n), if w > 0 then w - 1 else 0)
    else ZeroPad(Digits(n), w)
  }

  /** For a number with at most `w` digits, the padding has exactly width `w` and parses back. */
  lemma PadIntRoundTrip(n: int, w: nat)
    requires 1 <= w && 0 <= n < Pow10(w)
    ensures |PadInt(n, w)| == w && AllDigits(PadInt(n, w))
    ensures ParseDigits(PadInt(n, w)) == n
  {
    DigitsLength(n, w);
    var d := Digits(n);
    ParseDigitsOfDigits(n);
    if |d| < w {
      ParseLeadingZeros(w - |d|, d);
    }
  }

  /** ASCII lower-casing; exact for the suffixes compared here (".log", ".txt"). */
  function LowerAscii(s: string): (r: string)
    ensures |r| == |s|
    ensures forall i :: 0 <= i < |s| ==> r[i] == if 'A' <= s[i] <= 'Z' then (s[i] as int + 32) as char else s[i]
  {
    if |s| == 0 then ""
    else [if 'A' <= s[0] <= 'Z' then (s[0] as int + 32) as char else s[0]] + LowerAscii(s[1..])
  }

  // ---------------------------------------------------------------------
  // Whitespace (the ASCII part of what `str.isspace()` accepts)
  // ---------------------------------------------------------------------

  predicate IsSpace(c: char) {
    c == ' ' || c == '\t' || c == '\n' || c == '\r' || c == '\U{000B}' || c == '\U{000C}'
    || ('\U{001C}' <= c <= '\U{001F}')
  }

  function StripLeft(s: string): (r: string)
    ensures |r| <= |s|
    ensures |r| > 0 ==> !IsSpace(r[0])
  {
    if |s| > 0 && IsSpace(s[0]) then StripLeft(s[1..]) else s
  }

  function StripRight(s: string): (r: string)
    ensures |r| <= |s|
    ensures |r| > 0 ==> !IsSpace(r[|r| - 1])
  {
    if |s| > 0 && IsSpace(s[|s| - 1]) then StripRight(s[..|s| - 1]) else s
  }

  function Strip(s: string): string {
    StripRight(StripLeft(s))
  }

  /** A string that neither starts nor ends with whitespace is left as it is. */
  lemma StripNoSpaceEnds(s: string)
    requires |s| > 0 && !IsSpace(s[0]) && !IsSpace(s[|s| - 1])
    ensures Strip(s) == s
  {
    assert StripLeft(s) == s;
  }
}
