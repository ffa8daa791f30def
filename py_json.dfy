/**
 * Parsed JSON values as `json.load` returns them, and Python's `int(x)` on
 * them, which every integer read of the statistics file goes through.
 */
module PyJson {
  import opened Wrappers
  import opened Strings

  /** A parsed JSON value: None, bool, int, float, str, list or dict. */
  datatype Json =
    | JNull
    | JBool(b: bool)
    | JInt(i: int)
    | JFloat(f: real)
    | JStr(s: string)
    | JList(items: seq<Json>)
    | JDict(fields: map<string, Json>)

  /** `int(f)` for a float: truncation toward zero. */
  function Trunc(f: real): (t: int)
    ensures 0.0 <= f ==> 0 <= t && t as real <= f < t as real + 1.0
    ensures f < 0.0 ==> t <= 0 && t as real - 1.0 < f <= t as real
  {
    if f >= 0.0 then f.Floor else -((-f).Floor)
  }

  /** Decimal digits with single underscores between them, the digit part `int(s)` accepts. */
  predicate DigitGroups(s: string) {
    && |s| > 0 && IsDigit(s[0]) && IsDigit(s[|s| - 1])
    && (forall i :: 0 <= i < |s| ==> IsDigit(s[i]) || s[i] == '_')
    && NoDoubleUnderscore(s)
  }

  predicate NoDoubleUnderscore(s: string) {
    |s| < 2 || (!(s[0] == '_' && s[1] == '_') && NoDoubleUnderscore(s[1..]))
  }

  function DropUnderscores(s: string): (r: string)
    ensures (forall i :: 0 <= i < |s| ==> IsDigit(s[i]) || s[i] == '_') ==> AllDigits(r)
    ensures AllDigits(s) ==> r == s
  {
    if |s| == 0 then ""
    else (if s[0] == '_' then "" else [s[0]]) + DropUnderscores(s[1..])
  }

  /** The value of an accepted digit part. */
  function GroupValue(s: string): nat
    requires DigitGroups(s)
  {
    ParseDigits(DropUnderscores(s))
  }

  /** A plain run of digits is an accepted digit part with its ordinary value. */
  lemma DigitsAreGroups(s: string)
    requires |s| > 0 && AllDigits(s)
    ensures DigitGroups(s) && GroupValue(s) == ParseDigits(s)
  {
    DigitsNoDouble(s);
  }

  lemma {:induction false} DigitsNoDouble(s: string)
    requires AllDigits(s)
    ensures NoDoubleUnderscore(s)
    decreases |s|
  {
    if |s| >= 2 {
      DigitsNoDouble(s[1..]);
    }
  }

  /**
   * `int(s)` for a str: surrounding whitespace is ignored, then an optional
   * sign and the digit part; anything else raises ValueError (None here).
   */
  function ParseIntStr(s: string): Option<int> {
    ParseTrimmed(Strip(s))
  }

  /** The sign and digit part of `int(s)`, after the whitespace is gone. */
  function ParseTrimmed(t: string): Option<int> {
    if |t| > 0 && (t[0] == '+' || t[0] == '-') then
      if DigitGroups(t[1..]) then
        var v: int := GroupValue(t[1..]);
        Some(if t[0] == '-' then -v else v)
      else None
    else if DigitGroups(t) then Some(GroupValue(t))
    else None
  }

  /**
   * `int(v)` for a parsed value: a bool is 1 or 0, a float is truncated, a
   * str is parsed; None, a list and a dict raise TypeError (None here).
   */
  function PyInt(v: Json): Option<int> {
    match v
    case JBool(b) => Some(if b then 1 else 0)
    case JInt(i) => Some(i)
    case JFloat(f) => Some(Trunc(f))
    case JStr(s) => ParseIntStr(s)
    case _ => None
  }

  /** The sign and digit part of `str(n)`, with or without a sign, reads back. */
  lemma ParseTrimmedDigits(n: nat)
    ensures ParseTrimmed(Digits(n)) == Some(n)
    ensures ParseTrimmed("-" + Digits(n)) == Some(-(n as int))
    ensures ParseTrimmed("+" + Digits(n)) == Some(n)
  {
    var d := Digits(n);
    ParseDigitsOfDigits(n);
    DigitsAreGroups(d);
    assert d[0] != '+' && d[0] != '-';
    ParseTrimmedSigned(d, '-');
    ParseTrimmedSigned(d, '+');
  }

  lemma ParseTrimmedSigned(d: string, sign: char)
    requires sign == '+' || sign == '-'
    requires DigitGroups(d)
    ensures ParseTrimmed([sign] + d) == Some(if sign == '-' then -(GroupValue(d) as int) else GroupValue(d) as int)
  {
    var t := [sign] + d;
    assert t[0] == sign && t[1..] == d;
  }

  /** `str(n)`: the digits, after a '-' for a negative number. */
  lemma PadIntNoWidth(n: int)
    ensures PadInt(n, 0) == if n < 0 then "-" + Digits(-n) else Digits(n)
  {
  }

  /** `int(str(n))` gives `n` back, for every integer. */
  lemma PyIntOfStr(n: int)
    ensures PyInt(JStr(PadInt(n, 0))) == Some(n)
  {
    var m: nat := if n < 0 then -n else n;
    var d := Digits(m);
    PadIntNoWidth(n);
    var t := PadInt(n, 0);
    assert t[|t| - 1] == d[|d| - 1];
    StripNoSpaceEnds(t);
    ParseTrimmedDigits(m);
  }

  /** Whitespace around a number and a leading '+' do not change what `int()` reads. */
  lemma PyIntSpacesAndPlus(n: nat)
    ensures PyInt(JStr(" +" + Digits(n) + "\n")) == Some(n)
  {
    var d := Digits(n);
    var s := " +" + d + "\n";
    var u := "+" + d + "\n";
    var v := "+" + d;
    assert s[1..] == u;
    assert u[..|u| - 1] == v;
    assert v[|v| - 1] == d[|d| - 1];
    StripNoSpaceEnds(v);
    assert StripLeft(s) == u;
    assert StripRight(u) == v;
    ParseTrimmedDigits(n);
  }

  /** Underscores between digits are accepted. */
  lemma ParseIntStrUnderscore()
    ensures ParseIntStr("1_000") == Some(1000)
  {
    var s := "1_000";
    StripNoSpaceEnds(s);
    assert DigitGroups(s);
    assert DropUnderscores(s) == "1000";
    assert ParseDigits("1000") == 1000 by {
      assert "1000"[..3] == "100";
      assert "100"[..2] == "10";
      assert "10"[..1] == "1";
    }
  }

  /** A doubled, leading or trailing underscore and a decimal point are rejected. */
  lemma ParseIntStrRejects()
    ensures ParseIntStr("1__0") == None
    ensures ParseIntStr("_1") == None
    ensures ParseIntStr("1_") == None
    ensures ParseIntStr("1.5") == None
  {
    StripNoSpaceEnds("1__0");
    assert !DigitGroups("1__0") by { assert "1__0"[1..] == "__0"; }
    StripNoSpaceEnds("_1");
    StripNoSpaceEnds("1_");
    StripNoSpaceEnds("1.5");
    assert !DigitGroups("1.5") by { assert "1.5"[1] == '.'; }
  }
}
