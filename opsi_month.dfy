/**
 * The integer bookkeeping of the CL1 monthly statistics
 * (module/statistics/opsi_month.py): the month key, `summary`, the integer
 * parts of `get_detailed_summary`, the JSON and log-line stages of
 * `compute_monthly_cl1_akashi_ap`, and the per-instance `get_opsi_stats` cache.
 * The file contents, the log files and the clock are inputs.
 */
module OpsiMonth {
  import opened Wrappers
  import opened Strings
  import opened PyJson

  // ---------------------------------------------------------------------
  // Keys
  // ---------------------------------------------------------------------

  /** `f"{year:04d}-{month:02d}"`. */
  function MonthKey(year: int, month: int): string {
    PadInt(year, 4) + "-" + PadInt(month, 2)
  }

  /** For a four-digit year and a two-digit month the key is "YYYY-MM" and both numbers read back. */
  lemma MonthKeyShape(year: int, month: int)
    requires 0 <= year < 10000 && 0 <= month < 100
    ensures var k := MonthKey(year, month);
      && |k| == 7 && k[4] == '-' && AllDigits(k[..4]) && AllDigits(k[5..])
      && ParseDigits(k[..4]) == year && ParseDigits(k[5..]) == month
  {
    assert Pow10(4) == 10000 && Pow10(2) == 100;
    PadIntRoundTrip(year, 4);
    PadIntRoundTrip(month, 2);
    var k := MonthKey(year, month);
    assert k[..4] == PadInt(year, 4);
    assert k[5..] == PadInt(month, 2);
  }

  /** Different months in range never share a key. */
  lemma MonthKeyInjective(y1: int, m1: int, y2: int, m2: int)
    requires 0 <= y1 < 10000 && 0 <= m1 < 100 && 0 <= y2 < 10000 && 0 <= m2 < 100
    requires MonthKey(y1, m1) == MonthKey(y2, m2)
    ensures y1 == y2 && m1 == m2
  {
    MonthKeyShape(y1, m1);
    MonthKeyShape(y2, m2);
  }

  lemma MonthKeyExample()
    ensures MonthKey(2025, 3) == "2025-03"
  {
    assert Digits(2) == "2";
    assert Digits(20) == "20";
    assert Digits(202) == "202";
    assert Digits(2025) == "2025";
    assert Digits(3) == "3";
    assert Repeat('0', 1) == "0";
  }

  function AkashiKey(key: string): string { key + "-akashi" }
  function ApKey(key: string): string { key + "-akashi-ap" }
  function EntriesKey(key: string): string { key + "-akashi-ap-entries" }

  // ---------------------------------------------------------------------
  // The statistics file
  // ---------------------------------------------------------------------

  /** The statistics file as read: absent, not valid JSON, or a parsed document. */
  datatype JsonFile = Missing | Malformed | Parsed(doc: Json)

  /** `_load_raw()`: the document when it is a dict, otherwise {}. */
  function LoadRaw(file: JsonFile): (r: map<string, Json>)
    ensures !file.Parsed? ==> r == map[]
    ensures file.Parsed? && !file.doc.JDict? ==> r == map[]
    ensures file.Parsed? && file.doc.JDict? ==> r == file.doc.fields
  {
    if file.Parsed? && file.doc.JDict? then file.doc.fields else map[]
  }

  /** `int(data.get(k, 0))` would raise. */
  predicate Unreadable(data: map<string, Json>, k: string) {
    k in data && PyInt(data[k]).None?
  }

  /** `int(data.get(k, 0))`, with a failing read taken as 0. */
  function Coerce(data: map<string, Json>, k: string): int {
    if k in data then PyInt(data[k]).GetOr(0) else 0
  }

  datatype MonthSummary = MonthSummary(month: string, totalBattles: int, akashiEncounters: int, raw: map<string, Json>)

  /** `summary(year, month)`: each count is the stored integer, or 0 when it is missing or not an integer. */
  function Summary(file: JsonFile, year: int, month: int): (s: MonthSummary)
    ensures s.month == MonthKey(year, month) && s.raw == LoadRaw(file)
    ensures MonthKey(year, month) in s.raw && PyInt(s.raw[MonthKey(year, month)]).Some? ==>
      s.totalBattles == PyInt(s.raw[MonthKey(year, month)]).value
    ensures MonthKey(year, month) !in s.raw || Unreadable(s.raw, MonthKey(year, month)) ==> s.totalBattles == 0
    ensures AkashiKey(MonthKey(year, month)) in s.raw && PyInt(s.raw[AkashiKey(MonthKey(year, month))]).Some? ==>
      s.akashiEncounters == PyInt(s.raw[AkashiKey(MonthKey(year, month))]).value
    ensures AkashiKey(MonthKey(year, month)) !in s.raw || Unreadable(s.raw, AkashiKey(MonthKey(year, month))) ==>
      s.akashiEncounters == 0
  {
    var key := MonthKey(year, month);
    var data := LoadRaw(file);
    MonthSummary(key, Coerce(data, key), Coerce(data, AkashiKey(key)), data)
  }

  // ---------------------------------------------------------------------
  // Entry lists
  // ---------------------------------------------------------------------

  /**
   * What one entry of the "-akashi-ap-entries" list contributes: a dict its
   * `int(amount)` (amount defaults to 0), anything else `int(entry)`; None
   * when that raises and the entry is skipped.
   */
  function EntryAmount(e: Json): Option<int> {
    match e
    case JDict(f) => if "amount" in f then PyInt(f["amount"]) else Some(0)
    case _ => PyInt(e)
  }

  /** The sum over the readable entries. */
  function EntriesSum(es: seq<Json>): int {
    if |es| == 0 then 0 else EntriesSum(es[..|es| - 1]) + EntryAmount(es[|es| - 1]).GetOr(0)
  }

  lemma {:induction false} EntriesSumAppend(a: seq<Json>, b: seq<Json>)
    ensures EntriesSum(a + b) == EntriesSum(a) + EntriesSum(b)
    decreases |b|
  {
    if |b| == 0 {
      assert a + b == a;
    } else {
      assert (a + b)[..|a + b| - 1] == a + b[..|b| - 1];
      EntriesSumAppend(a, b[..|b| - 1]);
    }
  }

  /** An unreadable entry, wherever it stands, changes nothing. */
  lemma EntriesSumSkipsUnreadable(a: seq<Json>, bad: Json, b: seq<Json>)
    requires EntryAmount(bad).None?
    ensures EntriesSum(a + [bad] + b) == EntriesSum(a + b)
  {
    EntriesSumAppend(a + [bad], b);
    EntriesSumAppend(a, b);
    assert (a + [bad])[..|a + [bad]| - 1] == a;
  }

  /** Plain integers and dicts with an integer amount add up as numbers. */
  lemma EntriesSumExample()
    ensures EntriesSum([JInt(5), JDict(map["amount" := JStr("7")]), JNull, JDict(map[])]) == 12
  {
    var es := [JInt(5), JDict(map["amount" := JStr("7")]), JNull, JDict(map[])];
    assert ParseIntStr("7") == Some(7) by {
      StripNoSpaceEnds("7");
    }
    assert EntryAmount(es[1]) == Some(7);
    assert EntryAmount(es[2]).None? && EntryAmount(es[3]) == Some(0);
    assert es[..1] == [JInt(5)] && es[..2] == es[..1] + [es[1]];
    assert EntriesSum(es[..1]) == 5 by { assert es[..1][..0] == []; }
    assert EntriesSum(es[..2]) == 12 by { assert es[..2][..1] == es[..1]; }
    assert EntriesSum(es[..3]) == 12 by { assert es[..3][..2] == es[..2]; }
    assert es[..4] == es && es[..4][..3] == es[..3];
  }

  /** The accumulator loop over an entry list, skipping entries whose `int()` raises. */
  method SumEntries(es: seq<Json>) returns (total: int)
    ensures total == EntriesSum(es)
  {
    total := 0;
    var i := 0;
    while i < |es|
      invariant i <= |es|
      invariant total == EntriesSum(es[..i])
    {
      assert es[..i + 1][..i] == es[..i];
      var amount := EntryAmount(es[i]);
      if amount.Some? {
        total := total + amount.value;
      }
      i := i + 1;
    }
    assert es[..i] == es;
  }

  // ---------------------------------------------------------------------
  // get_detailed_summary
  // ---------------------------------------------------------------------

  /** The integer fields of `get_detailed_summary` (the two float ratios are not modelled). */
  datatype Detailed = Detailed(month: string, battleCount: int, battleRounds: int, sortieCost: int,
                               akashiEncounters: int, netStaminaGain: int)

  /** The net stamina gain: the explicit "-akashi-ap" value, or the entry sum when that value is 0. */
  function NetStamina(data: map<string, Json>, key: string): int {
    var ap := Coerce(data, ApKey(key));
    if ap != 0 then ap
    else if EntriesKey(key) in data && data[EntriesKey(key)].JList? then EntriesSum(data[EntriesKey(key)].items)
    else 0
  }

  /**
   * `get_detailed_summary(year, month)`. The three base reads are not
   * guarded: the first one whose `int()` raises makes the call fail, and the
   * failure names its key.
   */
  method GetDetailedSummary(file: JsonFile, year: int, month: int) returns (r: Result<Detailed, string>)
    ensures var data := LoadRaw(file); var key := MonthKey(year, month);
      r.Failure? <==> Unreadable(data, key) || Unreadable(data, AkashiKey(key)) || Unreadable(data, ApKey(key))
    ensures var data := LoadRaw(file); var key := MonthKey(year, month);
      var first := if Unreadable(data, key) then key else if Unreadable(data, AkashiKey(key)) then AkashiKey(key) else ApKey(key);
      r.Failure? ==> r.error == first
    ensures var data := LoadRaw(file); var key := MonthKey(year, month);
      r.Success? ==>
        && r.value.month == key
        && r.value.battleCount == Coerce(data, key)
        && r.value.akashiEncounters == Coerce(data, AkashiKey(key))
        && r.value.netStaminaGain == NetStamina(data, key)
    ensures r.Success? ==>
      && 2 * r.value.battleRounds <= r.value.battleCount < 2 * r.value.battleRounds + 2
      && r.value.sortieCost == 120 * r.value.battleRounds
  {
    var key := MonthKey(year, month);
    var data := LoadRaw(file);
    var battleRead := if key in data then PyInt(data[key]) else Some(0);
    if battleRead.None? {
      return Failure(key);
    }
    var akashiRead := if AkashiKey(key) in data then PyInt(data[AkashiKey(key)]) else Some(0);
    if akashiRead.None? {
      return Failure(AkashiKey(key));
    }
    var apRead := if ApKey(key) in data then PyInt(data[ApKey(key)]) else Some(0);
    if apRead.None? {
      return Failure(ApKey(key));
    }
    var battleCount := battleRead.value;
    var akashiAp := apRead.value;
    if akashiAp == 0 {
      var entries := if EntriesKey(key) in data then data[EntriesKey(key)] else JList([]);
      if entries.JList? {
        var sum := SumEntries(entries.items);
        akashiAp := akashiAp + sum;
      }
    }
    // Python's `//` floors; for the divisor 2 that is Dafny's `/` as well
    var battleRounds := battleCount / 2;
    var sortieCost := battleRounds * 120;
    r := Success(Detailed(key, battleCount, battleRounds, sortieCost, akashiRead.value, akashiAp));
  }

  // ---------------------------------------------------------------------
  // compute_monthly_cl1_akashi_ap
  // ---------------------------------------------------------------------

  /**
   * The JSON stage: Some(ap) when it returns, None when execution falls
   * through to the logs. A falsy document becomes {}, which falls through
   * like an empty list or string does. For a list or a string document, a
   * hit of `ap_key in data` returns 0 because `data.get` raises inside the
   * guarded read; a miss falls through, as does any other document.
   */
  function JsonStage(file: JsonFile, key: string): Option<int> {
    match file
    case Parsed(JDict(m)) =>
      if ApKey(key) in m then Some(PyInt(m[ApKey(key)]).GetOr(0))
      else if EntriesKey(key) in m && m[EntriesKey(key)].JList? && |m[EntriesKey(key)].items| > 0 then
        Some(EntriesSum(m[EntriesKey(key)].items))
      else None
    case Parsed(JList(xs)) => if JStr(ApKey(key)) in xs then Some(0) else None
    case Parsed(JStr(s)) => if Contains(s, ApKey(key)) then Some(0) else None
    case _ => None
  }

  /**
   * An unparsable "-akashi-ap" value still ends the stage with 0; a list
   * holding the key as an element does too; a missing, malformed or null
   * file falls through.
   */
  lemma JsonStageExamples(key: string)
    ensures JsonStage(Parsed(JDict(map[ApKey(key) := JStr("x")])), key) == Some(0)
    ensures JsonStage(Parsed(JList([JInt(1), JStr(ApKey(key))])), key) == Some(0)
    ensures JsonStage(Missing, key).None? && JsonStage(Malformed, key).None? && JsonStage(Parsed(JNull), key).None?
  {
    StripNoSpaceEnds("x");
    assert JStr(ApKey(key)) in [JInt(1), JStr(ApKey(key))];
  }

  /** A present "-akashi-ap" key wins even when it holds 0, where the detailed summary goes on to the entries. */
  lemma ZeroApKeyDiverges(m: map<string, Json>, key: string)
    requires ApKey(key) in m && PyInt(m[ApKey(key)]) == Some(0)
    requires EntriesKey(key) in m && m[EntriesKey(key)].JList?
    ensures JsonStage(Parsed(JDict(m)), key) == Some(0)
    ensures NetStamina(m, key) == EntriesSum(m[EntriesKey(key)].items)
  {
  }

  /** Without the "-akashi-ap" key and with a non-empty entry list, both readings give the entry sum. */
  lemma StagesAgreeOnEntries(m: map<string, Json>, key: string)
    requires ApKey(key) !in m
    requires EntriesKey(key) in m && m[EntriesKey(key)].JList? && |m[EntriesKey(key)].items| > 0
    ensures JsonStage(Parsed(JDict(m)), key) == Some(NetStamina(m, key))
  {
  }

  const ApTag: string := "ActionPoint"
  const ShopDone: string := "Shop buy finished"

  /** `lines[idx: idx + 25]`: the line and the 24 after it. */
  const WindowSize: nat := 25

  /** Length of the run of ASCII digits starting at `i`. */
  function DigitRun(s: string, i: nat): (n: nat)
    requires i <= |s|
    ensures i + n <= |s|
    ensures forall k :: i <= k < i + n ==> IsDigit(s[k])
    ensures i + n < |s| ==> !IsDigit(s[i + n])
    decreases |s| - i
  {
    if i < |s| && IsDigit(s[i]) then 1 + DigitRun(s, i + 1) else 0
  }

  /** The multiplier group `(?:_(\d+)x)?` at `k`: its value when it matches, 1 when it is absent. */
  function Multiplier(line: string, k: nat): nat
    requires k <= |line|
  {
    if k < |line| && line[k] == '_' && DigitRun(line, k + 1) > 0 then
      var n := DigitRun(line, k + 1);
      if k + 1 + n < |line| && line[k + 1 + n] == 'x' then ParseDigits(line[k + 1..k + 1 + n]) else 1
    else 1
  }

  /** `ActionPoint(\d+)(?:_(\d+)x)?` anchored at `i`: (base, multiplier) when it matches. */
  function MatchApAt(line: string, i: nat): Option<(nat, nat)> {
    if MatchAt(line, ApTag, i) && DigitRun(line, i + |ApTag|) > 0 then
      var j := i + |ApTag|;
      var n := DigitRun(line, j);
      Some((ParseDigits(line[j..j + n]), Multiplier(line, j + n)))
    else None
  }

  datatype ApMatch = ApMatch(at: nat, base: nat, mult: nat)

  /** `re.search(...)` from `i`: the leftmost position where the pattern matches. */
  function SearchAp(line: string, i: nat): (r: Option<ApMatch>)
    ensures r.Some? ==> i <= r.value.at < |line| && MatchApAt(line, r.value.at) == Some((r.value.base, r.value.mult))
    ensures r.Some? ==> forall j :: i <= j < r.value.at ==> MatchApAt(line, j).None?
    ensures r.None? ==> forall j :: i <= j ==> MatchApAt(line, j).None?
    decreases |line| - i
  {
    if i >= |line| then None
    else match MatchApAt(line, i)
      case Some(bm) => Some(ApMatch(i, bm.0, bm.1))
      case None => SearchAp(line, i + 1)
  }

  /** A match always lies on an occurrence of "ActionPoint". */
  lemma SearchApNeedsTag(line: string)
    requires SearchAp(line, 0).Some?
    ensures Contains(line, ApTag)
  {
    MatchAtContains(line, ApTag, SearchAp(line, 0).value.at);
  }

  lemma SearchApExamples()
    ensures SearchAp("ActionPoint60_3x", 0) == Some(ApMatch(0, 60, 3))
    ensures SearchAp("ActionPoint100", 0) == Some(ApMatch(0, 100, 1))
  {
    var a := "ActionPoint60_3x";
    assert MatchAt(a, ApTag, 0);
    assert DigitRun(a, 11) == 2;
    assert DigitRun(a, 14) == 1;
    assert a[11..13] == "60" && a[14..15] == "3";
    assert ParseDigits("60") == 60 by { assert "60"[..1] == "6"; }
    var b := "ActionPoint100";
    assert MatchAt(b, ApTag, 0);
    assert DigitRun(b, 11) == 3;
    assert b[11..14] == "100";
    assert ParseDigits("100") == 100 by { assert "100"[..2] == "10"; assert "10"[..1] == "1"; }
  }

  function Min(a: int, b: int): int { if a < b then a else b }

  /** The window a line at `idx` is checked against. */
  function WindowAt(lines: seq<string>, idx: nat): seq<string>
    requires idx < |lines|
  {
    lines[idx..Min(idx + WindowSize, |lines|)]
  }

  /** What the line at `idx` adds to the log total. */
  function LineCredit(lines: seq<string>, idx: nat): nat
    requires idx < |lines|
  {
    var line := lines[idx];
    if Contains(line, ApTag) && Contains(line, "Click") && Contains(Join(WindowAt(lines, idx), "\n"), ShopDone) then
      ApAmount(line)
    else 0
  }

  /** `base * mult` of the first match in the line, 0 when there is none. */
  function ApAmount(line: string): nat {
    match SearchAp(line, 0)
    case Some(m) => m.base * m.mult
    case None => 0
  }

  /**
   * A line is credited only when it holds "ActionPoint" and "Click" and
   * "Shop buy finished" is in it or one of the next 24 lines; it is then
   * credited base × multiplier of the first match (0 without one).
   */
  lemma LineCreditSpec(lines: seq<string>, idx: nat)
    requires idx < |lines|
    ensures var line := lines[idx];
      var shop := exists k :: idx <= k < idx + WindowSize && k < |lines| && Contains(lines[k], ShopDone);
      && (Contains(line, ApTag) && Contains(line, "Click") && shop ==> LineCredit(lines, idx) == ApAmount(line))
      && (!(Contains(line, ApTag) && Contains(line, "Click") && shop) ==> LineCredit(lines, idx) == 0)
  {
    var w := WindowAt(lines, idx);
    ContainsJoin(w, ShopDone);
    if exists k :: idx <= k < idx + WindowSize && k < |lines| && Contains(lines[k], ShopDone) {
      var k :| idx <= k < idx + WindowSize && k < |lines| && Contains(lines[k], ShopDone);
      assert w[k - idx] == lines[k];
    }
    if exists k :: 0 <= k < |w| && Contains(w[k], ShopDone) {
      var k :| 0 <= k < |w| && Contains(w[k], ShopDone);
      assert lines[idx + k] == w[k];
    }
  }

  /** The credit of the first `n` lines. */
  function LinesTotal(lines: seq<string>, n: nat): nat
    requires n <= |lines|
  {
    if n == 0 then 0 else LinesTotal(lines, n - 1) + LineCredit(lines, n - 1)
  }

  datatype YearMonth = YearMonth(year: int, month: int)

  /** One entry of the log directory: is it a file, its suffix, its mtime (if readable), its lines (if decodable). */
  datatype LogFile = LogFile(isFile: bool, suffix: string, mtime: Option<YearMonth>, lines: Option<seq<string>>)

  /** The directory filter: regular ".log"/".txt" files (any case) from the month; an unreadable mtime passes. */
  predicate Selected(f: LogFile, year: int, month: int) {
    && f.isFile
    && (LowerAscii(f.suffix) == ".log" || LowerAscii(f.suffix) == ".txt")
    && (f.mtime.None? || f.mtime == Some(YearMonth(year, month)))
  }

  /** What one directory entry adds. */
  function FileCredit(f: LogFile, year: int, month: int): nat {
    if Selected(f, year, month) && f.lines.Some? then LinesTotal(f.lines.value, |f.lines.value|) else 0
  }

  /** The total over the directory entries, in sorted order. */
  function FilesTotal(files: seq<LogFile>, year: int, month: int): nat {
    if |files| == 0 then 0 else FilesTotal(files[..|files| - 1], year, month) + FileCredit(files[|files| - 1], year, month)
  }

  /** The per-line accumulation over one file. */
  method ScanLines(lines: seq<string>) returns (total: nat)
    ensures total == LinesTotal(lines, |lines|)
  {
    total := 0;
    var idx := 0;
    while idx < |lines|
      invariant idx <= |lines|
      invariant total == LinesTotal(lines, idx)
    {
      var line := lines[idx];
      var credit := 0;
      if Contains(line, ApTag) && Contains(line, "Click") {
        var window := Join(WindowAt(lines, idx), "\n");
        if Contains(window, ShopDone) {
          credit := ApAmount(line);
        }
      }
      assert credit == LineCredit(lines, idx);
      total := total + credit;
      idx := idx + 1;
    }
  }

  /** The loop over the sorted log directory. */
  method ScanLogs(files: seq<LogFile>, year: int, month: int) returns (total: nat)
    ensures total == FilesTotal(files, year, month)
  {
    total := 0;
    var i := 0;
    while i < |files|
      invariant i <= |files|
      invariant total == FilesTotal(files[..i], year, month)
    {
      assert files[..i + 1][..i] == files[..i];
      var f := files[i];
      if Selected(f, year, month) && f.lines.Some? {
        var t := ScanLines(f.lines.value);
        total := total + t;
      }
      i := i + 1;
    }
    assert files[..i] == files;
  }

  /** Where the monthly figure came from; the screenshot CSV stage itself is not modelled. */
  datatype ApSource = FromJson(ap: int) | FromLogs(total: nat) | FromScreenshots

  /**
   * `compute_monthly_cl1_akashi_ap(year, month)`: the JSON stage when it
   * returns, else the log total when it is positive, else the screenshot
   * stage.
   */
  method ComputeMonthly(file: JsonFile, year: int, month: int, logs: seq<LogFile>) returns (src: ApSource)
    ensures var stage := JsonStage(file, MonthKey(year, month));
      && (stage.Some? ==> src == FromJson(stage.value))
      && (stage.None? && FilesTotal(logs, year, month) > 0 ==> src == FromLogs(FilesTotal(logs, year, month)))
      && (stage.None? && FilesTotal(logs, year, month) == 0 ==> src == FromScreenshots)
  {
    var stage := ReadJsonStage(file, MonthKey(year, month));
    if stage.Some? {
      return FromJson(stage.value);
    }
    var total := ScanLogs(logs, year, month);
    if total > 0 {
      return FromLogs(total);
    }
    return FromScreenshots;
  }

  /** The statistics-file part of `compute_monthly_cl1_akashi_ap`, with its entry loop. */
  method ReadJsonStage(file: JsonFile, key: string) returns (stage: Option<int>)
    ensures stage == JsonStage(file, key)
  {
    if !file.Parsed? {
      return None;
    }
    match file.doc {
      case JDict(m) =>
        if ApKey(key) in m {
          return Some(PyInt(m[ApKey(key)]).GetOr(0));
        }
        if EntriesKey(key) in m && m[EntriesKey(key)].JList? && |m[EntriesKey(key)].items| > 0 {
          var total := SumEntries(m[EntriesKey(key)].items);
          return Some(total);
        }
        return None;
      case JList(xs) =>
        return if JStr(ApKey(key)) in xs then Some(0) else None;
      case JStr(s) =>
        return if Contains(s, ApKey(key)) then Some(0) else None;
      case _ =>
        return None;
    }
  }

  // ---------------------------------------------------------------------
  // get_opsi_stats
  // ---------------------------------------------------------------------

  /** `instance_name or "default"`: None and the empty name both mean "default". */
  function InstanceKey(name: Option<string>): (k: string)
    ensures k != ""
    ensures name.Some? && name.value != "" ==> k == name.value
    ensures k == "default" <==> name.None? || name.value == "" || name.value == "default"
  {
    if name.None? || name.value == "" then "default" else name.value
  }

  /** An `OpsiMonthStats` object; its name also picks its directory under log/cl1/. */
  class MonthStats {
    const instanceName: string

    constructor (name: Option<string>)
      ensures instanceName == InstanceKey(name)
    {
      instanceName := InstanceKey(name);
    }
  }

  /** The module-level `_singleton` dict. */
  class StatsRegistry {
    var instances: map<string, MonthStats>

    ghost predicate Valid()
      reads this
    {
      forall k :: k in instances ==> instances[k].instanceName == k
    }

    constructor ()
      ensures Valid() && instances == map[]
    {
      instances := map[];
    }

    /** `get_opsi_stats(instance_name)`: the cached object for the key, created on first use. */
    method GetOpsiStats(name: Option<string>) returns (s: MonthStats)
      requires Valid()
      modifies this
      ensures Valid()
      ensures InstanceKey(name) in instances && s == instances[InstanceKey(name)]
      ensures s.instanceName == InstanceKey(name)
      ensures InstanceKey(name) in old(instances) ==> s == old(instances)[InstanceKey(name)] && instances == old(instances)
      ensures InstanceKey(name) !in old(instances) ==> fresh(s) && instances == old(instances)[InstanceKey(name) := s]
    {
      var key := InstanceKey(name);
      if key !in instances {
        var created := new MonthStats(name);
        instances := instances[key := created];
      }
      s := instances[key];
    }
  }

  /** Two calls whose names share a key (None, "" and "default" do) return the same object. */
  method SameKeySameInstance(reg: StatsRegistry, a: Option<string>, b: Option<string>) returns (s1: MonthStats, s2: MonthStats)
    requires reg.Valid() && InstanceKey(a) == InstanceKey(b)
    modifies reg
    ensures reg.Valid() && s1 == s2
  {
    s1 := reg.GetOpsiStats(a);
    s2 := reg.GetOpsiStats(b);
  }
}
