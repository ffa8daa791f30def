/**
 * The coin-task registry: the four yellow-coin farming tasks in their fixed
 * hand-off order, the CL1 task they hand control back to, and the sibling
 * scan of `_try_other_coin_tasks`.
 */
module CoinTasks {
  import opened Wrappers

  /** OpsiObscure, OpsiAbyssal, OpsiStronghold, OpsiMeowfficerFarming. */
  datatype CoinTask = Obscure | Abyssal | Stronghold | MeowfficerFarming

  /** A task that `task_call` can name: a coin task or OpsiHazard1Leveling (CL1). */
  datatype TaskName = CoinTaskName(task: CoinTask) | Hazard1Leveling

  /** `all_coin_tasks`, the fixed scan order. */
  const Order: seq<CoinTask> := [Obscure, Abyssal, Stronghold, MeowfficerFarming]

  /** Scheduler enable flags; a task without an entry reads as disabled. */
  type Flags = map<CoinTask, bool>

  predicate IsEnabled(flags: Flags, t: CoinTask) {
    t in flags && flags[t]
  }

  /** `all_coin_tasks.index(t)`: every task is in the list exactly once. */
  function IndexOf(t: CoinTask): (i: nat)
    ensures i < |Order| && Order[i] == t
    ensures forall j :: 0 <= j < |Order| && Order[j] == t ==> j == i
  {
    match t
    case Obscure => 0
    case Abyssal => 1
    case Stronghold => 2
    case MeowfficerFarming => 3
  }

  /** The candidates tried from `current`: those after it, then those before it. */
  function Rotation(current: CoinTask): (r: seq<CoinTask>)
    ensures |r| == |Order| - 1
    ensures current !in r
    ensures forall t :: t != current ==> t in r
    ensures forall j :: 0 <= j < |Order| - 1 - IndexOf(current) ==> r[j] == Order[IndexOf(current) + 1 + j]
    ensures forall j :: |Order| - 1 - IndexOf(current) <= j < |r| ==> r[j] == Order[j - (|Order| - 1 - IndexOf(current))]
  {
    var i := IndexOf(current);
    var r := Order[i + 1..] + Order[..i];
    assert r == match current
      case Obscure => [Abyssal, Stronghold, MeowfficerFarming]
      case Abyssal => [Stronghold, MeowfficerFarming, Obscure]
      case Stronghold => [MeowfficerFarming, Obscure, Abyssal]
      case MeowfficerFarming => [Obscure, Abyssal, Stronghold];
    r
  }

  /** Index of the first enabled task in `s`, if any. */
  function FirstEnabled(s: seq<CoinTask>, flags: Flags): (r: Option<nat>)
    ensures r.Some? ==> r.value < |s| && IsEnabled(flags, s[r.value])
    ensures r.Some? ==> forall j :: 0 <= j < r.value ==> !IsEnabled(flags, s[j])
    ensures r.None? ==> forall j :: 0 <= j < |s| ==> !IsEnabled(flags, s[j])
  {
    if |s| == 0 then None
    else if IsEnabled(flags, s[0]) then Some(0)
    else match FirstEnabled(s[1..], flags)
      case Some(k) => Some(k + 1)
      case None => None
  }

  /** The sibling `_try_other_coin_tasks` calls from `current`, or None when it falls back to CL1. */
  function Sibling(current: CoinTask, flags: Flags): Option<CoinTask> {
    match FirstEnabled(Rotation(current), flags)
    case Some(k) => Some(Rotation(current)[k])
    case None => None
  }

  /** The chosen sibling is another task, is enabled, and every task tried before it is disabled. */
  lemma SiblingSpec(current: CoinTask, flags: Flags)
    ensures Sibling(current, flags).Some? ==>
      var t := Sibling(current, flags).value;
      t != current && IsEnabled(flags, t) &&
      exists k :: 0 <= k < |Rotation(current)| && Rotation(current)[k] == t &&
        forall j :: 0 <= j < k ==> !IsEnabled(flags, Rotation(current)[j])
    ensures Sibling(current, flags).None? <==> forall t :: t != current ==> !IsEnabled(flags, t)
  {
    var r := Rotation(current);
    if Sibling(current, flags).None? {
      forall t | t != current ensures !IsEnabled(flags, t) {
        assert t in r;
        var k :| 0 <= k < |r| && r[k] == t;
      }
    } else {
      var k := FirstEnabled(r, flags).value;
      assert r[k] == Sibling(current, flags).value;
    }
  }

  /** The caller's own flag never influences the scan. */
  lemma SiblingIgnoresOwnFlag(current: CoinTask, flags: Flags, b: bool)
    ensures Sibling(current, flags[current := b]) == Sibling(current, flags)
  {
    var r := Rotation(current);
    FirstEnabledAgree(r, flags[current := b], flags);
  }

  lemma {:induction false} FirstEnabledAgree(s: seq<CoinTask>, f: Flags, g: Flags)
    requires forall j :: 0 <= j < |s| ==> IsEnabled(f, s[j]) == IsEnabled(g, s[j])
    ensures FirstEnabled(s, f) == FirstEnabled(s, g)
    decreases |s|
  {
    if |s| > 0 {
      FirstEnabledAgree(s[1..], f, g);
    }
  }

  /**
   * The two index loops of `_try_other_coin_tasks`: first `range(i + 1, 4)`,
   * then `range(0, i)`, returning the first enabled task.
   */
  method ScanSiblings(current: CoinTask, flags: Flags) returns (found: Option<CoinTask>)
    ensures found == Sibling(current, flags)
  {
    var ci := IndexOf(current);
    ghost var r := Rotation(current);
    var i := ci + 1;
    while i < |Order|
      invariant ci + 1 <= i <= |Order|
      invariant forall j :: 0 <= j < i - ci - 1 ==> !IsEnabled(flags, r[j])
    {
      if IsEnabled(flags, Order[i]) {
        assert r[i - ci - 1] == Order[i];
        found := Some(Order[i]);
        return;
      }
      i := i + 1;
    }
    i := 0;
    while i < ci
      invariant 0 <= i <= ci
      invariant forall j :: 0 <= j < |Order| - 1 - ci + i ==> !IsEnabled(flags, r[j])
    {
      if IsEnabled(flags, Order[i]) {
        assert r[|Order| - 1 - ci + i] == Order[i];
        found := Some(Order[i]);
        return;
      }
      i := i + 1;
    }
    found := None;
  }
}
