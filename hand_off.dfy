/**
 * The hand-off policy shared by the three coin-task drivers: the revert to
 * CL1 (`_check_yellow_coins_and_return_to_cl1`), the sibling hand-off
 * (`_try_other_coin_tasks`) and the "no more work" branch that each driver
 * runs when its unit of work finds nothing to do. Each driver supplies its
 * own task and its own notification title.
 */
module HandOff {
  import opened Wrappers
  import opened CoinTasks
  import opened Threshold
  import opened Scheduler

  /** The one batch a revert commits: all four coin tasks disabled, then CL1 called. */
  const RevertWrites: seq<Write> := [
    SetEnable(Obscure, false), SetEnable(Abyssal, false),
    SetEnable(Stronghold, false), SetEnable(MeowfficerFarming, false),
    Call(Hazard1Leveling)]

  /** The enable flags after a sequence of writes. */
  function FlagsAfter(flags: Flags, ws: seq<Write>): Flags
    decreases |ws|
  {
    if |ws| == 0 then flags
    else FlagsAfter(if ws[0].SetEnable? then flags[ws[0].task := ws[0].on] else flags, ws[1..])
  }

  /** After the revert batch no coin task can be scheduled, and CL1 is the only task called, last. */
  lemma RevertWritesDisableAll(flags: Flags)
    ensures forall t :: !IsEnabled(FlagsAfter(flags, RevertWrites), t)
    ensures forall i :: 0 <= i < |RevertWrites| && RevertWrites[i].Call? ==>
      i == |RevertWrites| - 1 && RevertWrites[i].target == Hazard1Leveling
  {
    var w := RevertWrites;
    var f1 := flags[Obscure := false];
    var f2 := f1[Abyssal := false];
    var f3 := f2[Stronghold := false];
    var f4 := f3[MeowfficerFarming := false];
    assert FlagsAfter(flags, w) == FlagsAfter(f1, w[1..]);
    assert FlagsAfter(f1, w[1..]) == FlagsAfter(f2, w[2..]);
    assert FlagsAfter(f2, w[2..]) == FlagsAfter(f3, w[3..]);
    assert FlagsAfter(f3, w[3..]) == FlagsAfter(f4, w[4..]);
    assert FlagsAfter(f4, w[4..]) == FlagsAfter(f4, w[5..]);
    forall t ensures !IsEnabled(f4, t) {
      assert t == Obscure || t == Abyssal || t == Stronghold || t == MeowfficerFarming;
    }
  }

  /** No coin task became enabled between `before` and `after`: the hand-off only ever switches flags off. */
  predicate OnlyDisabled(before: Flags, after: Flags) {
    forall t :: IsEnabled(after, t) ==> IsEnabled(before, t)
  }

  /** What a task does when its unit of work reports that nothing is left. */
  datatype Decision =
    | Stop                      // task_stop only
    | CallSibling(task: CoinTask)  // task_call(sibling), then return
    | FallBackToCl1             // task_call(CL1), then task_stop

  /**
   * The "no more work" rule: a sibling hand-off only when CL1 and smart
   * scheduling are on and the coins are strictly below the preserve floor;
   * `flags` are the enable flags as the scan reads them.
   */
  function ExhaustedDecision(current: CoinTask, cl1Enabled: bool, smartScheduling: bool,
                             coins: int, preserveSetting: Option<int>, flags: Flags): Decision {
    DecisionFor(cl1Enabled, smartScheduling, coins, preserveSetting, Sibling(current, flags))
  }

  /** The same rule once the scan has picked `sibling` (None: no other coin task is enabled). */
  function DecisionFor(cl1Enabled: bool, smartScheduling: bool, coins: int, preserveSetting: Option<int>,
                       sibling: Option<CoinTask>): Decision {
    if cl1Enabled && smartScheduling && coins < Preserve(preserveSetting) then
      match sibling
      case Some(t) => CallSibling(t)
      case None => FallBackToCl1
    else Stop
  }

  function DecisionWrites(d: Decision): seq<Write> {
    match d
    case Stop => []
    case CallSibling(t) => [Call(CoinTaskName(t))]
    case FallBackToCl1 => [Call(Hazard1Leveling)]
  }

  /** The task ends (TaskEnd) unless a sibling was called. */
  predicate DecisionEnds(d: Decision) {
    !d.CallSibling?
  }

  lemma ExhaustedDecisionSpec(current: CoinTask, cl1Enabled: bool, smartScheduling: bool,
                              coins: int, preserveSetting: Option<int>, flags: Flags)
    ensures var d := ExhaustedDecision(current, cl1Enabled, smartScheduling, coins, preserveSetting, flags);
      && (d != Stop <==> cl1Enabled && smartScheduling && coins < Preserve(preserveSetting))
      && (d.CallSibling? ==> d.task != current && IsEnabled(flags, d.task))
      && (d == FallBackToCl1 <==>
            cl1Enabled && smartScheduling && coins < Preserve(preserveSetting) &&
            forall t :: t != current ==> !IsEnabled(flags, t))
  {
    SiblingSpec(current, flags);
  }

  /**
   * Between the preserve floor and the revert threshold an exhausted task
   * simply stops: it neither hands off to a sibling nor calls CL1, and the
   * revert check does not fire either.
   */
  lemma GapBetweenPreserveAndThreshold(current: CoinTask, smartScheduling: bool, coins: int,
                                       preserveSetting: Option<int>, returnSetting: Option<int>, flags: Flags)
    requires Preserve(preserveSetting) <= coins
    requires Resolve(true, preserveSetting, returnSetting).threshold.Some?
    requires coins < Resolve(true, preserveSetting, returnSetting).threshold.value
    ensures ExhaustedDecision(current, true, smartScheduling, coins, preserveSetting, flags) == Stop
    ensures !RevertFires(true, preserveSetting, returnSetting, coins)
  {
  }

  /**
   * From Obscure with only Stronghold enabled, Stronghold is called; from
   * MeowfficerFarming with nothing enabled, CL1 is called and the task stops.
   */
  lemma HandOffExamples()
    ensures ExhaustedDecision(Obscure, true, true, 0, None, map[Stronghold := true]) == CallSibling(Stronghold)
    ensures ExhaustedDecision(MeowfficerFarming, true, true, 0, None, map[]) == FallBackToCl1
    ensures DecisionWrites(FallBackToCl1) == [Call(Hazard1Leveling)] && DecisionEnds(FallBackToCl1)
  {
    var r := Rotation(Obscure);
    assert r == [Abyssal, Stronghold, MeowfficerFarming];
    assert r[1..] == [Stronghold, MeowfficerFarming];
    assert FirstEnabled(r, map[Stronghold := true]) == Some(1);
    SiblingSpec(MeowfficerFarming, map[]);
  }

  /**
   * Abyssal below the preserve floor with smart scheduling on hands off rather
   * than stopping; with smart scheduling off it stops whatever the balance.
   */
  lemma SmartSchedulingGate(current: CoinTask, coins: int, preserveSetting: Option<int>, flags: Flags)
    ensures ExhaustedDecision(Abyssal, true, true, 50000, None, flags) != Stop
    ensures ExhaustedDecision(current, true, false, coins, preserveSetting, flags) == Stop
  {
  }

  /** On a Decision that calls a task, it never calls the caller itself. */
  lemma DecisionNeverCallsSelf(current: CoinTask, cl1Enabled: bool, smartScheduling: bool,
                               coins: int, preserveSetting: Option<int>, flags: Flags)
    ensures Call(CoinTaskName(current)) !in
      DecisionWrites(ExhaustedDecision(current, cl1Enabled, smartScheduling, coins, preserveSetting, flags))
  {
    SiblingSpec(current, flags);
  }

  /**
   * `_check_yellow_coins_and_return_to_cl1(context)`, with `coins` the
   * reading of `get_yellow_coins()`. On a revert it pushes the notice, commits
   * the revert batch and ends the task (`task_stop` raises, so the method's
   * `return True` is never reached; `ended` records that).
   */
  method CheckRevert(c: Config, title: string, coins: int) returns (ended: bool)
    requires c.Valid()
    modifies c
    ensures c.Valid() && c.batching == old(c.batching) && c.hasStronghold == old(c.hasStronghold)
    ensures ended == RevertFires(c.cl1Enabled, c.preserveSetting, c.returnSetting, coins)
    ensures !ended ==> c.enabled == old(c.enabled) && c.log == old(c.log) && c.pending == old(c.pending)
    ensures ended ==> c.enabled == FlagsAfter(old(c.enabled), RevertWrites)
    ensures ended && !old(c.batching) ==> c.log == old(c.log) + c.PushLog(title) + [Commit(RevertWrites)]
    ensures ended && old(c.batching) ==>
      c.log == old(c.log) + c.PushLog(title) && c.pending == old(c.pending) + RevertWrites
  {
    if !c.cl1Enabled {
      return false;
    }
    var th := Resolve(c.cl1Enabled, c.preserveSetting, c.returnSetting);
    if th.threshold.None? {
      return false;
    }
    if coins >= th.threshold.value {
      c.NotifyPush(title);
      var outer := c.BeginBatch();
      c.Apply(SetEnable(Obscure, false));
      c.Apply(SetEnable(Abyssal, false));
      c.Apply(SetEnable(Stronghold, false));
      c.Apply(SetEnable(MeowfficerFarming, false));
      c.Apply(Call(Hazard1Leveling));
      assert !old(c.batching) ==> c.pending == RevertWrites;
      c.EndBatch(outer);
      return true;
    }
    return false;
  }
  /** `CheckRevert` outside a batch, which is how the drivers call it: all it leaves is the notice, one commit and every coin task off. */
  method CheckRevertOutsideBatch(c: Config, title: string, coins: int) returns (ended: bool)
    requires c.Valid() && !c.batching
    modifies c
    ensures c.Valid() && !c.batching && c.hasStronghold == old(c.hasStronghold)
    ensures ended == RevertFires(c.cl1Enabled, c.preserveSetting, c.returnSetting, coins)
    ensures !ended ==> c.enabled == old(c.enabled) && c.log == old(c.log)
    ensures ended ==> c.log == old(c.log) + c.PushLog(title) + [Commit(RevertWrites)]
    ensures ended ==> forall t :: !IsEnabled(c.enabled, t)
  {
    ghost var before := c.enabled;
    ended := CheckRevert(c, title, coins);
    if ended {
      RevertWritesDisableAll(before);
    }
  }


  /** The task `_try_other_coin_tasks` calls for a scan result. */
  function SiblingTarget(next: Option<CoinTask>): TaskName {
    match next
    case Some(t) => CoinTaskName(t)
    case None => Hazard1Leveling
  }

  /**
   * `_try_other_coin_tasks` from `current`: calls the first enabled sibling
   * and returns, or calls CL1 and ends the task when there is none.
   */
  method TryOtherCoinTasks(c: Config, current: CoinTask) returns (ended: bool)
    requires c.Valid()
    modifies c
    ensures c.Valid() && c.batching == old(c.batching)
    ensures c.enabled == old(c.enabled) && c.hasStronghold == old(c.hasStronghold)
    ensures ended == Sibling(current, old(c.enabled)).None?
    ensures var w := Call(SiblingTarget(Sibling(current, old(c.enabled))));
      if c.batching then c.log == old(c.log) && c.pending == old(c.pending) + [w]
      else c.log == old(c.log) + [Commit([w])]
  {
    var next := ScanSiblings(current, c.enabled);
    match next {
      case Some(t) =>
        c.Apply(Call(CoinTaskName(t)));
        ended := false;
      case None =>
        c.Apply(Call(Hazard1Leveling));
        ended := true;
    }
  }

  /**
   * The "no more work" branch every driver repeats: disable the task's own
   * flag, then hand off to a sibling when coins are below the preserve floor
   * (CL1 and smart scheduling on), and otherwise stop. `coins` is the
   * `get_yellow_coins()` reading, used only when the branch reads it.
   */
  method NoMoreWork(c: Config, current: CoinTask, coins: int) returns (ended: bool)
    requires c.Valid()
    modifies c
    ensures c.Valid() && c.batching == old(c.batching) && c.hasStronghold == old(c.hasStronghold)
    ensures c.enabled == old(c.enabled)[current := false]
    ensures var d := ExhaustedDecision(current, c.cl1Enabled, c.smartScheduling, coins, c.preserveSetting, old(c.enabled));
      && ended == DecisionEnds(d)
      && var ws := [SetEnable(current, false)] + DecisionWrites(d);
         if c.batching then c.log == old(c.log) && c.pending == old(c.pending) + ws
         else c.log == old(c.log) + Singles(ws)
  {
    ghost var before := c.enabled;
    c.Apply(SetEnable(current, false));
    SiblingIgnoresOwnFlag(current, before, false);
    if c.cl1Enabled && c.smartScheduling {
      if coins < Preserve(c.preserveSetting) {
        ended := TryOtherCoinTasks(c, current);
        return;
      }
    }
    ended := true;
  }
}
