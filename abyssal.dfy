/**
 * OpsiAbyssal (module/os/tasks/abyssal.py): `delay_abyssal`, the branches of
 * `clear_abyssal`, and the `os_abyssal` loop, which, unlike the other two
 * drivers, never runs the yellow-coin check.
 */
module Abyssal {
  import opened Wrappers
  import opened CoinTasks
  import opened Notify
  import opened Scheduler
  import opened HandOff
  import opened Runs

  /** The title this file's revert notice carries. */
  const RevertTitle: string := "[Alas] 深渊海域 - 黄币充足"

  lemma RevertTitleFormat(name: string)
    ensures FormatTitle(name, RevertTitle) == "[Alas <" + name + ">] 深渊海域 - 黄币充足"
  {
    assert Tag <= RevertTitle;
  }

  /** From Abyssal the scan tries Stronghold, MeowfficerFarming, Obscure, in that order. */
  lemma SiblingOrder(flags: Flags)
    ensures Rotation(Abyssal) == [Stronghold, MeowfficerFarming, Obscure]
    ensures Sibling(Abyssal, flags) ==
      if IsEnabled(flags, Stronghold) then Some(Stronghold)
      else if IsEnabled(flags, MeowfficerFarming) then Some(MeowfficerFarming)
      else if IsEnabled(flags, Obscure) then Some(Obscure)
      else None
  {
    var r := Rotation(Abyssal);
    assert r == [Stronghold, MeowfficerFarming, Obscure];
    assert r[1..] == [MeowfficerFarming, Obscure];
    assert r[1..][1..] == [Obscure];
    assert r[1..][1..][1..] == [];
    if !IsEnabled(flags, Stronghold) && !IsEnabled(flags, MeowfficerFarming) && IsEnabled(flags, Obscure) {
      assert FirstEnabled(r[1..][1..], flags) == Some(0);
      assert FirstEnabled(r, flags) == Some(2);
    }
  }

  /** The `task_delay` of `delay_abyssal(True)`: 150 minutes just before the OpSi reset, else the default. */
  function ResetDelay(osResetRemain: int): Write {
    if osResetRemain == 0 then Delay(Some(150), true) else Delay(None, true)
  }

  /**
   * `delay_abyssal(result)`, with `coins` the reading of the "no more
   * loggers" branch and `osResetRemain` that of `get_os_reset_remain()`.
   * With loggers left the task is delayed and stopped; without, the "no more
   * work" rule applies.
   */
  method DelayAbyssal(c: Config, result: bool, coins: int, osResetRemain: int) returns (ended: bool)
    requires c.Valid()
    modifies c
    ensures c.Valid() && c.batching == old(c.batching) && c.hasStronghold == old(c.hasStronghold)
    ensures result ==> ended && c.enabled == old(c.enabled)
    ensures !result ==>
      && ended == DecisionEnds(ExhaustedDecision(Abyssal, c.cl1Enabled, c.smartScheduling, coins, c.preserveSetting, old(c.enabled)))
      && c.enabled == old(c.enabled)[Abyssal := false]
    ensures var d := ExhaustedDecision(Abyssal, c.cl1Enabled, c.smartScheduling, coins, c.preserveSetting, old(c.enabled));
      var ws := if result then [ResetDelay(osResetRemain)] else [SetEnable(Abyssal, false)] + DecisionWrites(d);
      if c.batching then c.log == old(c.log) && c.pending == old(c.pending) + ws
      else c.log == old(c.log) + Singles(ws)
  {
    if !result {
      ended := NoMoreWork(c, Abyssal, coins);
      return;
    }
    if osResetRemain == 0 {
      c.Apply(Delay(Some(150), true));
    } else {
      c.Apply(Delay(None, true));
    }
    ended := true;
  }

  /** The readings one pass of the driver loop consumes. */
  datatype Round = Round(
    hasLogger: bool,      // storage_get_next_item('ABYSSAL', ...) found a logger
    coinsIfEmpty: int,    // get_yellow_coins() in the "no logger" branch
    bossCleared: bool,    // run_abyssal() result
    osResetRemain: int,   // get_os_reset_remain()
    switched: bool)       // check_task_switch() raised TaskEnd

  /**
   * `clear_abyssal()`. Without a logger the "no more work" rule runs inside
   * one batch; a failed boss fight asks for a human; otherwise
   * `delay_abyssal()` delays and stops the task.
   */
  method ClearAbyssal(c: Config, r: Round) returns (exit: Exit)
    requires c.Valid() && !c.batching
    modifies c
    ensures c.Valid() && !c.batching && c.hasStronghold == old(c.hasStronghold)
    ensures !r.hasLogger ==>
      var d := ExhaustedDecision(Abyssal, c.cl1Enabled, c.smartScheduling, r.coinsIfEmpty, c.preserveSetting, old(c.enabled));
      && exit == (if DecisionEnds(d) then TaskEnded else Returned)
      && c.enabled == old(c.enabled)[Abyssal := false]
      && c.log == old(c.log) + [Commit([SetEnable(Abyssal, false)] + DecisionWrites(d))]
    ensures r.hasLogger && !r.bossCleared ==>
      exit == HumanTakeover && c.enabled == old(c.enabled) && c.log == old(c.log)
    ensures r.hasLogger && r.bossCleared ==>
      exit == TaskEnded && c.enabled == old(c.enabled) && c.log == old(c.log) + [Commit([ResetDelay(r.osResetRemain)])]
  {
    if !r.hasLogger {
      var outer := c.BeginBatch();
      ghost var dw := DecisionWrites(ExhaustedDecision(Abyssal, c.cl1Enabled, c.smartScheduling, r.coinsIfEmpty, c.preserveSetting, c.enabled));
      var ended := NoMoreWork(c, Abyssal, r.coinsIfEmpty);
      assert c.pending == [SetEnable(Abyssal, false)] + dw;
      c.EndBatch(outer);
      exit := if ended then TaskEnded else Returned;
      return;
    }
    if !r.bossCleared {
      return HumanTakeover;
    }
    // delay_abyssal() with its default result=True reads no coins
    var ended := DelayAbyssal(c, true, 0, r.osResetRemain);
    exit := TaskEnded;
  }

  // The specification of the driver loop. A pass reads the flags only
  // through the sibling the scan picks, and a pass that lets the loop go on
  // changes no flag but this task's own, so a run is a function of the
  // sibling at its start.

  /** The hand-off of the "no logger" branch, once the scan has picked `sibling`. */
  function EmptyDecision(c: Config, r: Round, sibling: Option<CoinTask>): Decision
  {
    DecisionFor(c.cl1Enabled, c.smartScheduling, r.coinsIfEmpty, c.preserveSetting, sibling)
  }

  /** How one pass of the `os_abyssal()` loop leaves it: None when the loop goes on to the next reading. */
  function PassExit(c: Config, r: Round, sibling: Option<CoinTask>): Option<Exit>
  {
    if !r.hasLogger then
      if DecisionEnds(EmptyDecision(c, r, sibling)) then Some(TaskEnded)
      else if r.switched then Some(TaskEnded)
      else None
    else if !r.bossCleared then Some(HumanTakeover)
    else Some(TaskEnded)
  }

  /** What one pass commits: the "no logger" batch, nothing before a human takeover, or the delay. */
  function PassLog(c: Config, r: Round, sibling: Option<CoinTask>): seq<Effect>
  {
    if !r.hasLogger then [Commit([SetEnable(Abyssal, false)] + DecisionWrites(EmptyDecision(c, r, sibling)))]
    else if !r.bossCleared then []
    else [Commit([ResetDelay(r.osResetRemain)])]
  }

  /** The passes a run over `rounds` makes, each read against the same sibling. */
  function Passes(c: Config, rounds: seq<Round>, sibling: Option<CoinTask>): (ps: seq<PassResult>)
    ensures |ps| == |rounds|
  {
    if |rounds| == 0 then []
    else Passes(c, rounds[..|rounds| - 1], sibling) + [PassResult(PassExit(c, rounds[|rounds| - 1], sibling), PassLog(c, rounds[|rounds| - 1], sibling))]
  }

  /** Pass `k` of a run is the pass `PassExit` and `PassLog` describe for reading `k`. */
  lemma {:induction false} PassesAt(c: Config, rounds: seq<Round>, sibling: Option<CoinTask>, k: nat)
    requires k < |rounds|
    ensures Passes(c, rounds, sibling)[k] == PassResult(PassExit(c, rounds[k], sibling), PassLog(c, rounds[k], sibling))
  {
    if k < |rounds| - 1 {
      PassesAt(c, rounds[..|rounds| - 1], sibling, k);
    }
  }

  /**
   * A run of the loop over `rounds` that started with `sibling` as the
   * scan's pick: see `Runs.LoopOutcome`.
   */
  predicate RunOutcome(c: Config, rounds: seq<Round>, sibling: Option<CoinTask>, log0: seq<Effect>, log: seq<Effect>, exit: Exit, clears: nat)
  {
    LoopOutcome(Passes(c, rounds, sibling), log0, log, exit, clears)
  }

  /** A commit whose only flag write is this task's own disable: no push, no other task touched. */
  predicate OwnCommit(e: Effect)
  {
    && e.Commit?
    && forall i :: 0 <= i < |e.writes| ==> e.writes[i].SetEnable? ==> e.writes[i] == SetEnable(Abyssal, false)
  }

  /** A pass never returns normally, and it goes on exactly after handing off without a task switch. */
  lemma PassExitSpec(c: Config, r: Round, sibling: Option<CoinTask>)
    ensures PassExit(c, r, sibling) != Some(Returned) && PassExit(c, r, sibling) != Some(OutOfRounds)
    ensures PassExit(c, r, sibling).None? <==>
      !r.hasLogger && EmptyDecision(c, r, sibling).CallSibling? && !r.switched
    ensures PassExit(c, r, sibling) == Some(HumanTakeover) <==> r.hasLogger && !r.bossCleared
  {
  }

  /** Everything a pass commits is an own commit. */
  lemma PassLogOwn(c: Config, r: Round, sibling: Option<CoinTask>)
    ensures forall k :: 0 <= k < |PassLog(c, r, sibling)| ==> OwnCommit(PassLog(c, r, sibling)[k])
  {
    if !r.hasLogger {
      var ws := [SetEnable(Abyssal, false)] + DecisionWrites(EmptyDecision(c, r, sibling));
      assert forall i :: 1 <= i < |ws| ==> ws[i].Call?;
      assert OwnCommit(Commit(ws));
    }
  }

  /** Everything the first `n` passes of a run commit is an own commit. */
  lemma {:induction false} CommittedOwn(c: Config, rounds: seq<Round>, sibling: Option<CoinTask>, n: nat)
    requires n <= |rounds|
    ensures forall k :: 0 <= k < |Committed(Passes(c, rounds, sibling), n)| ==> OwnCommit(Committed(Passes(c, rounds, sibling), n)[k])
  {
    if n > 0 {
      var ps := Passes(c, rounds, sibling);
      CommittedOwn(c, rounds, sibling, n - 1);
      PassesAt(c, rounds, sibling, n - 1);
      PassLogOwn(c, rounds[n - 1], sibling);
      assert Committed(ps, n) == Committed(ps, n - 1) + ps[n - 1].log;
    }
  }

  /**
   * What a run promises as a whole: it never returns normally; every pass but
   * the last handed off to a sibling without a task switch; a human takeover
   * follows a failed boss fight and adds nothing; a cleared boss ends the run
   * with the delay as its last commit; and nothing but own commits is logged.
   */
  lemma RunFacts(c: Config, rounds: seq<Round>, sibling: Option<CoinTask>, log0: seq<Effect>, log: seq<Effect>, exit: Exit, clears: nat)
    requires RunOutcome(c, rounds, sibling, log0, log, exit, clears)
    ensures exit != Returned
    ensures |rounds| > 0 ==> clears >= 1
    ensures forall k :: 0 <= k < clears - 1 ==> !rounds[k].hasLogger && !rounds[k].switched
    ensures exit == OutOfRounds ==> forall k :: 0 <= k < |rounds| ==> !rounds[k].hasLogger && !rounds[k].switched
    ensures exit == HumanTakeover ==>
      && rounds[clears - 1].hasLogger && !rounds[clears - 1].bossCleared
      && log == log0 + Committed(Passes(c, rounds, sibling), clears - 1)
    ensures exit != OutOfRounds && rounds[clears - 1].hasLogger && rounds[clears - 1].bossCleared ==>
      && exit == TaskEnded
      && log == log0 + Committed(Passes(c, rounds, sibling), clears - 1) + [Commit([ResetDelay(rounds[clears - 1].osResetRemain)])]
    ensures |log0| <= |log| && forall k :: |log0| <= k < |log| ==> OwnCommit(log[k])
  {
    var ps := Passes(c, rounds, sibling);
    forall k | 0 <= k < clears
      ensures ps[k].exit.None? ==> !rounds[k].hasLogger && !rounds[k].switched
    {
      PassesAt(c, rounds, sibling, k);
      PassExitSpec(c, rounds[k], sibling);
    }
    if clears > 0 {
      PassesAt(c, rounds, sibling, clears - 1);
      PassExitSpec(c, rounds[clears - 1], sibling);
      assert Committed(ps, clears) == Committed(ps, clears - 1) + ps[clears - 1].log;
    }
    CommittedOwn(c, rounds, sibling, clears);
    assert forall k :: |log0| <= k < |log| ==> log[k] == Committed(ps, clears)[k - |log0|];
  }

  /**
   * Short of coins with Stronghold as the scan's pick: a reading without a
   * logger hands off and goes on, and the next one, whose boss is cleared,
   * commits the delay and ends the run after two passes.
   */
  lemma HandOffThenBoss(c: Config, log0: seq<Effect>, log: seq<Effect>, exit: Exit, clears: nat)
    requires c.cl1Enabled && c.smartScheduling && c.preserveSetting.None?
    requires RunOutcome(c, [Round(false, 0, false, 0, false), Round(true, 0, true, 3, false)], Some(Stronghold), log0, log, exit, clears)
    ensures exit == TaskEnded && clears == 2
    ensures log == log0 + [Commit([SetEnable(Abyssal, false), Call(CoinTaskName(Stronghold))]), Commit([Delay(None, true)])]
  {
    var rounds := [Round(false, 0, false, 0, false), Round(true, 0, true, 3, false)];
    var ps := Passes(c, rounds, Some(Stronghold));
    PassesAt(c, rounds, Some(Stronghold), 0);
    PassesAt(c, rounds, Some(Stronghold), 1);
    assert EmptyDecision(c, rounds[0], Some(Stronghold)) == CallSibling(Stronghold);
    assert [SetEnable(Abyssal, false)] + [Call(CoinTaskName(Stronghold))] == [SetEnable(Abyssal, false), Call(CoinTaskName(Stronghold))];
    assert ps[0] == PassResult(None, [Commit([SetEnable(Abyssal, false), Call(CoinTaskName(Stronghold))])]);
    assert ps[1] == PassResult(Some(TaskEnded), [Commit([Delay(None, true)])]);
    assert Committed(ps, 1) == ps[0].log;
    assert Committed(ps, 2) == ps[0].log + ps[1].log;
  }

  /** One pass of the `os_abyssal()` loop: clear, then the task-switch check. */
  method AbyssalPass(c: Config, rounds: seq<Round>, n: nat, ghost sibling: Option<CoinTask>) returns (result: Option<Exit>)
    requires c.Valid() && !c.batching && n < |rounds|
    requires Sibling(Abyssal, c.enabled) == sibling
    modifies c
    ensures c.Valid() && !c.batching && c.hasStronghold == old(c.hasStronghold)
    ensures result == Passes(c, rounds, sibling)[n].exit && result != Some(OutOfRounds)
    ensures c.log == old(c.log) + Passes(c, rounds, sibling)[n].log
    ensures result.None? ==> Sibling(Abyssal, c.enabled) == sibling
    ensures c.enabled == old(c.enabled) || c.enabled == old(c.enabled)[Abyssal := false]
  {
    PassesAt(c, rounds, sibling, n);
    result := AbyssalRound(c, rounds[n], sibling);
  }

  /** One pass of the loop over reading `r`, in terms of `PassExit` and `PassLog`. */
  method AbyssalRound(c: Config, r: Round, ghost sibling: Option<CoinTask>) returns (result: Option<Exit>)
    requires c.Valid() && !c.batching
    requires Sibling(Abyssal, c.enabled) == sibling
    modifies c
    ensures c.Valid() && !c.batching && c.hasStronghold == old(c.hasStronghold)
    ensures result == PassExit(c, r, sibling) && result != Some(OutOfRounds)
    ensures c.log == old(c.log) + PassLog(c, r, sibling)
    ensures result.None? ==> Sibling(Abyssal, c.enabled) == sibling
    ensures c.enabled == old(c.enabled) || c.enabled == old(c.enabled)[Abyssal := false]
  {
    SiblingIgnoresOwnFlag(Abyssal, c.enabled, false);
    var exit := ClearAbyssal(c, r);
    if exit != Returned {
      return Some(exit);
    }
    if r.switched {
      return Some(TaskEnded);
    }
    return None;
  }

  /**
   * `os_abyssal()`: clear, then the task-switch check, for as many passes as
   * `rounds` supplies. No coin check runs, so nothing is pushed and no flag
   * but this task's own is written; a pass is repeated only after the
   * "no logger" branch handed off to a sibling.
   */
  method OsAbyssal(c: Config, rounds: seq<Round>) returns (exit: Exit, clears: nat)
    requires c.Valid() && !c.batching
    modifies c
    ensures c.Valid() && !c.batching && c.hasStronghold == old(c.hasStronghold)
    ensures RunOutcome(c, rounds, Sibling(Abyssal, old(c.enabled)), old(c.log), c.log, exit, clears)
    ensures exit != Returned
    ensures clears <= |rounds| && (exit == OutOfRounds ==> clears == |rounds|)
    ensures c.enabled == old(c.enabled) || c.enabled == old(c.enabled)[Abyssal := false]
    ensures |old(c.log)| <= |c.log| && forall k :: |old(c.log)| <= k < |c.log| ==> OwnCommit(c.log[k])
    ensures forall k :: 0 <= k < clears - 1 ==> !rounds[k].hasLogger && !rounds[k].switched
    ensures exit == OutOfRounds ==> forall k :: 0 <= k < |rounds| ==> !rounds[k].hasLogger
    ensures exit == HumanTakeover ==> 0 < clears && rounds[clears - 1].hasLogger && !rounds[clears - 1].bossCleared
    ensures exit != OutOfRounds && 0 < clears && rounds[clears - 1].hasLogger && rounds[clears - 1].bossCleared ==>
      exit == TaskEnded && 0 < |c.log| && c.log[|c.log| - 1] == Commit([ResetDelay(rounds[clears - 1].osResetRemain)])
  {
    ghost var sibling := Sibling(Abyssal, c.enabled);
    ghost var ps := Passes(c, rounds, sibling);
    exit := OutOfRounds;
    clears := 0;
    while clears < |rounds|
      invariant c.Valid() && !c.batching && c.hasStronghold == old(c.hasStronghold)
      invariant clears <= |rounds| && exit == OutOfRounds
      invariant Sibling(Abyssal, c.enabled) == sibling
      invariant c.enabled == old(c.enabled) || c.enabled == old(c.enabled)[Abyssal := false]
      invariant c.log == old(c.log) + Committed(ps, clears)
      invariant forall k :: 0 <= k < clears ==> ps[k].exit.None?
    {
      Step(ps, old(c.log), clears, c.log);
      var result := AbyssalPass(c, rounds, clears, sibling);
      clears := clears + 1;
      if result.Some? {
        exit := result.value;
        break;
      }
    }
    if exit == OutOfRounds {
      RunsOut(ps, old(c.log), c.log);
    }
    RunFacts(c, rounds, sibling, old(c.log), c.log, exit, clears);
  }
}
