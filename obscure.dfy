/**
 * OpsiObscure (module/os/tasks/obscure.py): the "no item" branch of
 * `clear_obscure` and the `os_obscure` driver, whose loop runs once unless
 * OpsiObscure_ForceRun keeps it going.
 */
module Obscure {
  import opened Wrappers
  import opened CoinTasks
  import opened Threshold
  import opened Notify
  import opened Scheduler
  import opened HandOff
  import opened Runs

  /** The title this file's revert notice carries. */
  const RevertTitle: string := "[Alas] 隐秘海域 - 黄币充足"

  lemma RevertTitleFormat(name: string)
    ensures FormatTitle(name, RevertTitle) == "[Alas <" + name + ">] 隐秘海域 - 黄币充足"
  {
    assert Tag <= RevertTitle;
  }

  /**
   * From Obscure (index 0) the scan tries Abyssal, Stronghold,
   * MeowfficerFarming, and the wrap-around part of the scan is empty.
   */
  lemma SiblingOrder(flags: Flags)
    ensures Rotation(Obscure) == Order[1..] && Order[..IndexOf(Obscure)] == []
    ensures Sibling(Obscure, flags) ==
      if IsEnabled(flags, Abyssal) then Some(Abyssal)
      else if IsEnabled(flags, Stronghold) then Some(Stronghold)
      else if IsEnabled(flags, MeowfficerFarming) then Some(MeowfficerFarming)
      else None
  {
    var r := Rotation(Obscure);
    assert r == [Abyssal, Stronghold, MeowfficerFarming];
    assert r[1..] == [Stronghold, MeowfficerFarming];
    assert r[1..][1..] == [MeowfficerFarming];
    assert r[1..][1..][1..] == [];
    if !IsEnabled(flags, Abyssal) && !IsEnabled(flags, Stronghold) && IsEnabled(flags, MeowfficerFarming) {
      assert FirstEnabled(r[1..][1..], flags) == Some(0);
      assert FirstEnabled(r, flags) == Some(2);
    }
  }

  /** The readings one pass of the driver loop consumes. */
  datatype Round = Round(
    hasItem: bool,       // storage_get_next_item('OBSCURE', ...) found a coordinate
    coinsIfEmpty: int,   // get_yellow_coins() in the "no item" branch
    coinsAfter: int,     // get_yellow_coins() of the in-loop check
    switched: bool)      // check_task_switch() raised TaskEnd

  /**
   * `clear_obscure()`. Without an item the "no more work" rule runs inside
   * one batch; otherwise the obscure zone is run (outside the model) and the
   * method returns.
   */
  method ClearObscure(c: Config, r: Round) returns (ended: bool)
    requires c.Valid() && !c.batching
    modifies c
    ensures c.Valid() && !c.batching && c.hasStronghold == old(c.hasStronghold)
    ensures !r.hasItem ==>
      var d := ExhaustedDecision(Obscure, c.cl1Enabled, c.smartScheduling, r.coinsIfEmpty, c.preserveSetting, old(c.enabled));
      && ended == DecisionEnds(d)
      && c.enabled == old(c.enabled)[Obscure := false]
      && c.log == old(c.log) + [Commit([SetEnable(Obscure, false)] + DecisionWrites(d))]
    ensures r.hasItem ==> !ended && c.enabled == old(c.enabled) && c.log == old(c.log)
  {
    if !r.hasItem {
      var outer := c.BeginBatch();
      ghost var dw := DecisionWrites(ExhaustedDecision(Obscure, c.cl1Enabled, c.smartScheduling, r.coinsIfEmpty, c.preserveSetting, c.enabled));
      ended := NoMoreWork(c, Obscure, r.coinsIfEmpty);
      assert c.pending == [SetEnable(Obscure, false)] + dw;
      c.EndBatch(outer);
      return;
    }
    ended := false;
  }

  // The specification of the driver loop. Every pass reads the flags only
  // through the sibling the scan picks, and no pass that lets the loop go on
  // changes that sibling, so a run is a function of the sibling at its start.

  /** The hand-off of the "no item" branch, once the scan has picked `sibling`. */
  function EmptyDecision(c: Config, r: Round, sibling: Option<CoinTask>): Decision
  {
    DecisionFor(c.cl1Enabled, c.smartScheduling, r.coinsIfEmpty, c.preserveSetting, sibling)
  }

  /** `clear_obscure()` ends the task: no item, and the hand-off stops or falls back to CL1. */
  predicate ClearEnds(c: Config, r: Round, sibling: Option<CoinTask>)
  {
    !r.hasItem && DecisionEnds(EmptyDecision(c, r, sibling))
  }

  /** What `clear_obscure()` commits on one pass: the "no item" batch, or nothing. */
  function ClearLog(c: Config, r: Round, sibling: Option<CoinTask>): seq<Effect>
  {
    if r.hasItem then []
    else [Commit([SetEnable(Obscure, false)] + DecisionWrites(EmptyDecision(c, r, sibling)))]
  }

  /** How one pass of the `os_obscure()` loop leaves it: None when the loop goes on to the next reading. */
  function PassExit(c: Config, r: Round, sibling: Option<CoinTask>): Option<Exit>
  {
    if ClearEnds(c, r, sibling) then Some(TaskEnded)
    else if RevertFires(c.cl1Enabled, c.preserveSetting, c.returnSetting, r.coinsAfter) then Some(TaskEnded)
    else if !c.forceRun then Some(Returned)
    else if r.switched then Some(TaskEnded)
    else None
  }

  /** What one pass commits: the clear, then the revert notice and switch, or the own disable. */
  function PassLog(c: Config, r: Round, sibling: Option<CoinTask>): seq<Effect>
  {
    ClearLog(c, r, sibling) +
    if ClearEnds(c, r, sibling) then []
    else if RevertFires(c.cl1Enabled, c.preserveSetting, c.returnSetting, r.coinsAfter) then c.PushLog(RevertTitle) + [Commit(RevertWrites)]
    else if !c.forceRun then [Commit([SetEnable(Obscure, false)])]
    else []
  }

  /** The passes a run over `rounds` makes, each read against the same sibling. */
  function Passes(c: Config, rounds: seq<Round>, sibling: Option<CoinTask>): (ps: seq<PassResult>)
    ensures |ps| == |rounds|
  {
    if |rounds| == 0 then []
    else Passes(c, rounds[..|rounds| - 1], sibling) + [PassResult(PassExit(c, rounds[|rounds| - 1], sibling), PassLog(c, rounds[|rounds| - 1], sibling))]
  }

  /** Pass `k` of a run is the pass `PassExit` and `PassLog` describe for reading `k`. */
  lemma {:induction false} PassesAt(c: Config, rounds: seq<Round>, sibling: Option<CoinTask>, k: nat)
    requires k < |rounds|
    ensures Passes(c, rounds, sibling)[k] == PassResult(PassExit(c, rounds[k], sibling), PassLog(c, rounds[k], sibling))
  {
    if k < |rounds| - 1 {
      PassesAt(c, rounds[..|rounds| - 1], sibling, k);
    }
  }

  /**
   * A run of the loop over `rounds` that started with `sibling` as the
   * scan's pick: see `Runs.LoopOutcome`.
   */
  predicate RunOutcome(c: Config, rounds: seq<Round>, sibling: Option<CoinTask>, log0: seq<Effect>, log: seq<Effect>, exit: Exit, clears: nat)
  {
    LoopOutcome(Passes(c, rounds, sibling), log0, log, exit, clears)
  }

  /** A pass never hands over to a human, and without ForceRun it never goes on. */
  lemma PassExitSpec(c: Config, r: Round, sibling: Option<CoinTask>)
    ensures PassExit(c, r, sibling) != Some(HumanTakeover) && PassExit(c, r, sibling) != Some(OutOfRounds)
    ensures PassExit(c, r, sibling).None? <==>
      c.forceRun && !ClearEnds(c, r, sibling) && !RevertFires(c.cl1Enabled, c.preserveSetting, c.returnSetting, r.coinsAfter) && !r.switched
    ensures PassExit(c, r, sibling) == Some(Returned) <==>
      !c.forceRun && !ClearEnds(c, r, sibling) && !RevertFires(c.cl1Enabled, c.preserveSetting, c.returnSetting, r.coinsAfter)
  {
  }

  /**
   * What a run promises as a whole: no human takeover; without ForceRun one
   * pass, which returns after disabling the task unless its clear or its
   * coin check ended the task; with ForceRun never a return, every pass but
   * the last ended by none of the clear, the coin check and a task switch,
   * and the last one by one of them. An in-loop revert closes the log with
   * the notice and the revert batch.
   */
  lemma RunFacts(c: Config, rounds: seq<Round>, sibling: Option<CoinTask>, log0: seq<Effect>, log: seq<Effect>, exit: Exit, clears: nat)
    requires RunOutcome(c, rounds, sibling, log0, log, exit, clears)
    ensures exit != HumanTakeover
    ensures |rounds| > 0 ==> clears >= 1
    ensures !c.forceRun ==> clears <= 1
    ensures exit == Returned ==> !c.forceRun && clears == 1
    ensures c.forceRun ==> exit != Returned
    ensures exit == OutOfRounds ==> clears == |rounds| && (c.forceRun || rounds == [])
    ensures (!c.forceRun && |rounds| > 0 && !ClearEnds(c, rounds[0], sibling) &&
             !RevertFires(c.cl1Enabled, c.preserveSetting, c.returnSetting, rounds[0].coinsAfter)) ==>
      exit == Returned && clears == 1 && log == log0 + ClearLog(c, rounds[0], sibling) + [Commit([SetEnable(Obscure, false)])]
    ensures forall k :: 0 <= k < clears - 1 ==>
      !ClearEnds(c, rounds[k], sibling) && !RevertFires(c.cl1Enabled, c.preserveSetting, c.returnSetting, rounds[k].coinsAfter) && !rounds[k].switched
    ensures exit == TaskEnded ==>
      var r := rounds[clears - 1];
      ClearEnds(c, r, sibling) || RevertFires(c.cl1Enabled, c.preserveSetting, c.returnSetting, r.coinsAfter) || (c.forceRun && r.switched)
    ensures exit == TaskEnded ==>
      var r := rounds[clears - 1];
      !ClearEnds(c, r, sibling) && RevertFires(c.cl1Enabled, c.preserveSetting, c.returnSetting, r.coinsAfter) ==>
        log == log0 + Committed(Passes(c, rounds, sibling), clears - 1) + ClearLog(c, r, sibling) + c.PushLog(RevertTitle) + [Commit(RevertWrites)]
  {
    var ps := Passes(c, rounds, sibling);
    if clears > 0 {
      PassesAt(c, rounds, sibling, 0);
      PassExitSpec(c, rounds[0], sibling);
    }
    GoneOn(c, rounds, sibling, if exit == OutOfRounds then clears else clears - 1);
    if exit != OutOfRounds {
      var r := rounds[clears - 1];
      PassesAt(c, rounds, sibling, clears - 1);
      PassExitSpec(c, r, sibling);
      LastPass(ps, log0, log, exit, clears);
      if !ClearEnds(c, r, sibling) && RevertFires(c.cl1Enabled, c.preserveSetting, c.returnSetting, r.coinsAfter) {
        RevertPassLog(c, r, sibling, log0 + Committed(ps, clears - 1));
      } else if exit == Returned {
        ReturnPassLog(c, r, sibling, log0 + Committed(ps, clears - 1));
      }
    }
  }

  /** The first `n` passes of a run went on: ForceRun is on and none was ended by its clear, its coin check or a task switch. */
  lemma GoneOn(c: Config, rounds: seq<Round>, sibling: Option<CoinTask>, n: nat)
    requires n <= |rounds|
    requires forall k :: 0 <= k < n ==> Passes(c, rounds, sibling)[k].exit.None?
    ensures n > 0 ==> c.forceRun
    ensures forall k :: 0 <= k < n ==>
      !ClearEnds(c, rounds[k], sibling) && !RevertFires(c.cl1Enabled, c.preserveSetting, c.returnSetting, rounds[k].coinsAfter) && !rounds[k].switched
  {
    forall k | 0 <= k < n
      ensures c.forceRun && !ClearEnds(c, rounds[k], sibling) && !RevertFires(c.cl1Enabled, c.preserveSetting, c.returnSetting, rounds[k].coinsAfter) && !rounds[k].switched
    {
      PassesAt(c, rounds, sibling, k);
      PassExitSpec(c, rounds[k], sibling);
    }
    if n > 0 {
      PassesAt(c, rounds, sibling, 0);
      PassExitSpec(c, rounds[0], sibling);
    }
  }

  /** The log of a pass whose clear went on and whose coin check fired. */
  lemma RevertPassLog(c: Config, r: Round, sibling: Option<CoinTask>, before: seq<Effect>)
    requires !ClearEnds(c, r, sibling) && RevertFires(c.cl1Enabled, c.preserveSetting, c.returnSetting, r.coinsAfter)
    ensures before + PassLog(c, r, sibling) == before + ClearLog(c, r, sibling) + c.PushLog(RevertTitle) + [Commit(RevertWrites)]
  {
    var cl := ClearLog(c, r, sibling);
    var tail := c.PushLog(RevertTitle) + [Commit(RevertWrites)];
    assert PassLog(c, r, sibling) == cl + tail;
    assert before + (cl + tail) == before + cl + c.PushLog(RevertTitle) + [Commit(RevertWrites)];
  }

  /** The log of a pass that returns: the clear, then the task's own disable. */
  lemma ReturnPassLog(c: Config, r: Round, sibling: Option<CoinTask>, before: seq<Effect>)
    requires PassExit(c, r, sibling) == Some(Returned)
    ensures before + PassLog(c, r, sibling) == before + ClearLog(c, r, sibling) + [Commit([SetEnable(Obscure, false)])]
  {
    assert PassLog(c, r, sibling) == ClearLog(c, r, sibling) + [Commit([SetEnable(Obscure, false)])];
  }

  /**
   * With ForceRun on and CL1 off, two readings with an item and no task
   * switch give two clears and a run that only stops for lack of readings.
   */
  lemma ForceRunKeepsGoing(c: Config, sibling: Option<CoinTask>, log0: seq<Effect>, log: seq<Effect>, exit: Exit, clears: nat)
    requires c.forceRun && !c.cl1Enabled
    requires RunOutcome(c, [Round(true, 0, 0, false), Round(true, 0, 0, false)], sibling, log0, log, exit, clears)
    ensures exit == OutOfRounds && clears == 2 && log == log0
  {
    var rounds := [Round(true, 0, 0, false), Round(true, 0, 0, false)];
    var ps := Passes(c, rounds, sibling);
    PassesAt(c, rounds, sibling, 0);
    PassesAt(c, rounds, sibling, 1);
    assert ps[0] == PassResult(None, []) && ps[1] == PassResult(None, []);
    assert Committed(ps, 1) == [];
  }

  /** With ForceRun off, the first reading with an item returns after one clear. */
  lemma OnePassWithoutForceRun(c: Config, sibling: Option<CoinTask>, log0: seq<Effect>, log: seq<Effect>, exit: Exit, clears: nat)
    requires !c.forceRun && !c.cl1Enabled
    requires RunOutcome(c, [Round(true, 0, 0, false), Round(true, 0, 0, false)], sibling, log0, log, exit, clears)
    ensures exit == Returned && clears == 1 && log == log0 + [Commit([SetEnable(Obscure, false)])]
  {
    var rounds := [Round(true, 0, 0, false), Round(true, 0, 0, false)];
    var ps := Passes(c, rounds, sibling);
    PassesAt(c, rounds, sibling, 0);
    assert ps[0] == PassResult(Some(Returned), [Commit([SetEnable(Obscure, false)])]);
    assert Committed(ps, 1) == [Commit([SetEnable(Obscure, false)])];
  }

  /**
   * One pass of the `os_obscure()` loop: clear, the in-loop coin check, then
   * the ForceRun-off exit (disable and leave) or the task-switch check.
   */
  method ObscurePass(c: Config, rounds: seq<Round>, n: nat, ghost sibling: Option<CoinTask>) returns (result: Option<Exit>)
    requires c.Valid() && !c.batching && n < |rounds|
    requires Sibling(Obscure, c.enabled) == sibling
    modifies c
    ensures c.Valid() && !c.batching
    ensures result == Passes(c, rounds, sibling)[n].exit && result != Some(OutOfRounds)
    ensures c.log == old(c.log) + Passes(c, rounds, sibling)[n].log
    ensures result.None? ==> Sibling(Obscure, c.enabled) == sibling
    ensures result == Some(Returned) ==> c.enabled == old(c.enabled)[Obscure := false]
    ensures OnlyDisabled(old(c.enabled), c.enabled)
  {
    PassesAt(c, rounds, sibling, n);
    result := ObscureRound(c, rounds[n], sibling);
  }

  /** One pass of the loop over reading `r`, in terms of `PassExit` and `PassLog`. */
  method ObscureRound(c: Config, r: Round, ghost sibling: Option<CoinTask>) returns (result: Option<Exit>)
    requires c.Valid() && !c.batching
    requires Sibling(Obscure, c.enabled) == sibling
    modifies c
    ensures c.Valid() && !c.batching
    ensures result == PassExit(c, r, sibling) && result != Some(OutOfRounds)
    ensures c.log == old(c.log) + PassLog(c, r, sibling)
    ensures result.None? ==> Sibling(Obscure, c.enabled) == sibling
    ensures result == Some(Returned) ==> c.enabled == old(c.enabled)[Obscure := false]
    ensures OnlyDisabled(old(c.enabled), c.enabled)
  {
    ghost var before := c.enabled;
    SiblingIgnoresOwnFlag(Obscure, before, false);
    var ended := ClearObscure(c, r);
    if ended {
      return Some(TaskEnded);
    }
    ghost var mid := c.log;
    if c.cl1Enabled {
      ended := CheckRevertOutsideBatch(c, RevertTitle, r.coinsAfter);
      if ended {
        return Some(TaskEnded);
      }
    }
    if !c.forceRun {
      c.Apply(SetEnable(Obscure, false));
      assert c.log == mid + [Commit([SetEnable(Obscure, false)])];
      assert c.enabled == before[Obscure := false];
      return Some(Returned);
    }
    if r.switched {
      return Some(TaskEnded);
    }
    return None;
  }

  /**
   * `os_obscure()`: the coin check before the loop (only with CL1 on and the
   * check not disabled), then the loop.
   */
  method OsObscure(c: Config, preCoins: int, rounds: seq<Round>) returns (exit: Exit, clears: nat)
    requires c.Valid() && !c.batching
    modifies c
    ensures c.Valid() && !c.batching
    ensures clears <= |rounds|
    ensures exit != HumanTakeover
    ensures !c.forceRun ==> clears <= 1
    ensures exit == Returned ==> !c.forceRun && clears == 1 && !IsEnabled(c.enabled, Obscure)
    ensures c.forceRun ==> exit != Returned
    ensures exit == OutOfRounds ==> clears == |rounds| && (c.forceRun || rounds == [])
    ensures OnlyDisabled(old(c.enabled), c.enabled)
    ensures RevertFires(c.cl1Enabled, c.preserveSetting, c.returnSetting, preCoins) ==>
      exit == TaskEnded && clears == 0 && c.log == old(c.log) + c.PushLog(RevertTitle) + [Commit(RevertWrites)]
    ensures !RevertFires(c.cl1Enabled, c.preserveSetting, c.returnSetting, preCoins) ==>
      RunOutcome(c, rounds, Sibling(Obscure, old(c.enabled)), old(c.log), c.log, exit, clears)
    ensures !RevertFires(c.cl1Enabled, c.preserveSetting, c.returnSetting, preCoins) && |rounds| > 0 ==> clears >= 1
    ensures var sibling := Sibling(Obscure, old(c.enabled));
      !RevertFires(c.cl1Enabled, c.preserveSetting, c.returnSetting, preCoins) ==> forall k :: 0 <= k < clears - 1 ==>
        !ClearEnds(c, rounds[k], sibling) && !RevertFires(c.cl1Enabled, c.preserveSetting, c.returnSetting, rounds[k].coinsAfter) && !rounds[k].switched
    ensures var sibling := Sibling(Obscure, old(c.enabled));
      !RevertFires(c.cl1Enabled, c.preserveSetting, c.returnSetting, preCoins) && exit == TaskEnded ==>
        0 < clears &&
        var r := rounds[clears - 1];
        && (ClearEnds(c, r, sibling) || RevertFires(c.cl1Enabled, c.preserveSetting, c.returnSetting, r.coinsAfter) || (c.forceRun && r.switched))
        && (!ClearEnds(c, r, sibling) && RevertFires(c.cl1Enabled, c.preserveSetting, c.returnSetting, r.coinsAfter) ==>
              c.log == old(c.log) + Committed(Passes(c, rounds, sibling), clears - 1)
                + ClearLog(c, r, sibling) + c.PushLog(RevertTitle) + [Commit(RevertWrites)])
    ensures var sibling := Sibling(Obscure, old(c.enabled));
      !RevertFires(c.cl1Enabled, c.preserveSetting, c.returnSetting, preCoins) &&
      !c.forceRun && |rounds| > 0 && !ClearEnds(c, rounds[0], sibling) &&
      !RevertFires(c.cl1Enabled, c.preserveSetting, c.returnSetting, rounds[0].coinsAfter) ==>
        && exit == Returned && clears == 1 && !IsEnabled(c.enabled, Obscure)
        && c.log == old(c.log) + ClearLog(c, rounds[0], sibling) + [Commit([SetEnable(Obscure, false)])]
  {
    if c.cl1Enabled {
      var th := Resolve(c.cl1Enabled, c.preserveSetting, c.returnSetting);
      if th.threshold.Some? {
        var ended := CheckRevertOutsideBatch(c, RevertTitle, preCoins);
        if ended {
          return TaskEnded, 0;
        }
      }
    }
    exit, clears := ObscureLoop(c, rounds);
    RunFacts(c, rounds, Sibling(Obscure, old(c.enabled)), old(c.log), c.log, exit, clears);
  }

  /** The `while True` loop of `os_obscure()`, one `ObscurePass` per reading. */
  method ObscureLoop(c: Config, rounds: seq<Round>) returns (exit: Exit, clears: nat)
    requires c.Valid() && !c.batching
    modifies c
    ensures c.Valid() && !c.batching
    ensures RunOutcome(c, rounds, Sibling(Obscure, old(c.enabled)), old(c.log), c.log, exit, clears)
    ensures exit == Returned ==> !IsEnabled(c.enabled, Obscure)
    ensures OnlyDisabled(old(c.enabled), c.enabled)
  {
    ghost var sibling := Sibling(Obscure, c.enabled);
    ghost var ps := Passes(c, rounds, sibling);
    clears := 0;
    while clears < |rounds|
      invariant c.Valid() && !c.batching
      invariant clears <= |rounds|
      invariant Sibling(Obscure, c.enabled) == sibling
      invariant OnlyDisabled(old(c.enabled), c.enabled)
      invariant c.log == old(c.log) + Committed(ps, clears)
      invariant forall k :: 0 <= k < clears ==> ps[k].exit.None?
    {
      Step(ps, old(c.log), clears, c.log);
      var result := ObscurePass(c, rounds, clears, sibling);
      clears := clears + 1;
      if result.Some? {
        exit := result.value;
        return;
      }
    }
    exit := OutOfRounds;
    RunsOut(ps, old(c.log), c.log);
  }
}
