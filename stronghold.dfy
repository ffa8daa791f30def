/**
 * OpsiStronghold (module/os/tasks/stronghold.py): the fleet rotation that
 * attacks a siren stronghold, `clear_stronghold` with its two "no more
 * stronghold" branches, and the `os_stronghold` driver loop with the coin
 * check before and inside the loop.
 */
module Stronghold {
  import opened Wrappers
  import opened CoinTasks
  import opened Threshold
  import opened Notify
  import opened Scheduler
  import opened HandOff
  import opened Runs

  /** The title this task's revert notice carries. */
  const RevertTitle: string := "[Alas] 塞壬要塞 - 黄币充足"

  /** The pushed title: the "[Alas]" tag is replaced by the instance header. */
  lemma RevertTitleFormat(name: string)
    ensures FormatTitle(name, RevertTitle) == "[Alas <" + name + ">] 塞壬要塞 - 黄币充足"
  {
    assert Tag <= RevertTitle;
  }

  /** From Stronghold the scan tries MeowfficerFarming, Obscure, Abyssal, in that order. */
  lemma SiblingOrder(flags: Flags)
    ensures Rotation(Stronghold) == [MeowfficerFarming, Obscure, Abyssal]
    ensures Sibling(Stronghold, flags) ==
      if IsEnabled(flags, MeowfficerFarming) then Some(MeowfficerFarming)
      else if IsEnabled(flags, Obscure) then Some(Obscure)
      else if IsEnabled(flags, Abyssal) then Some(Abyssal)
      else None
  {
    var r := Rotation(Stronghold);
    assert r == [MeowfficerFarming, Obscure, Abyssal];
    assert r[1..] == [Obscure, Abyssal];
    assert r[1..][1..] == [Abyssal];
    assert r[1..][1..][1..] == [];
    if !IsEnabled(flags, MeowfficerFarming) && !IsEnabled(flags, Obscure) && IsEnabled(flags, Abyssal) {
      assert FirstEnabled(r[1..][1..], flags) == Some(0);
      assert FirstEnabled(r, flags) == Some(2);
    }
  }

  // ---------------------------------------------------------------------
  // One fleet: `run_stronghold_one_fleet`
  // ---------------------------------------------------------------------

  /** What the screen shows after one auto-search attack. */
  datatype Attempt = Attempt(percentageZero: bool, needRepair: bool, submarineEmpty: bool)

  /** How an attempt ends, tested in the source's order. */
  datatype Outcome = Cleared | Died | SubmarineOut | Stuck

  function Classify(a: Attempt, submarine: bool): Outcome {
    if a.percentageZero then Cleared
    else if a.needRepair then Died
    else if submarine && a.submarineEmpty then SubmarineOut
    else Stuck
  }

  /** `for _ in range(3)`: a fleet gets three tries, because it may stick in fog. */
  const MaxAttempts: nat := 3

  /**
   * The fleet's result after at most `budget` attempts: True on a clear or an
   * empty submarine, False when the fleet died, None (falsy) when every try stuck.
   */
  function Settle(attempts: seq<Attempt>, submarine: bool, budget: nat): Option<bool>
    decreases budget
  {
    if budget == 0 || |attempts| == 0 then None
    else match Classify(attempts[0], submarine)
      case Cleared => Some(true)
      case SubmarineOut => Some(true)
      case Died => Some(false)
      case Stuck => Settle(attempts[1..], submarine, budget - 1)
  }

  /** Settle is decided by the first attempt among the first `budget` that did not stick. */
  lemma {:induction false} SettleSpec(attempts: seq<Attempt>, submarine: bool, budget: nat)
    requires budget <= |attempts|
    ensures Settle(attempts, submarine, budget).None? <==>
      forall j :: 0 <= j < budget ==> Classify(attempts[j], submarine) == Stuck
    ensures Settle(attempts, submarine, budget).Some? ==>
      exists k :: 0 <= k < budget && Classify(attempts[k], submarine) != Stuck &&
        (forall j :: 0 <= j < k ==> Classify(attempts[j], submarine) == Stuck) &&
        Settle(attempts, submarine, budget).value == (Classify(attempts[k], submarine) != Died)
    decreases budget
  {
    if budget > 0 && Classify(attempts[0], submarine) == Stuck {
      SettleSpec(attempts[1..], submarine, budget - 1);
      if Settle(attempts[1..], submarine, budget - 1).Some? {
        var k :| 0 <= k < budget - 1 && Classify(attempts[1..][k], submarine) != Stuck &&
          (forall j :: 0 <= j < k ==> Classify(attempts[1..][j], submarine) == Stuck) &&
          Settle(attempts[1..], submarine, budget - 1).value == (Classify(attempts[1..][k], submarine) != Died);
        assert Classify(attempts[k + 1], submarine) != Stuck;
      }
    }
  }

  /**
   * `run_stronghold_one_fleet(fleet, submarine)`; `attempts` are the screen
   * readings of the successive tries and `tries` the attacks made.
   */
  method RunStrongholdOneFleet(attempts: seq<Attempt>, submarine: bool) returns (result: Option<bool>, tries: nat)
    requires MaxAttempts <= |attempts|
    ensures 1 <= tries <= MaxAttempts
    ensures forall j :: 0 <= j < tries - 1 ==> Classify(attempts[j], submarine) == Stuck
    ensures result.None? <==> tries == MaxAttempts && Classify(attempts[tries - 1], submarine) == Stuck
    ensures result.Some? ==> result.value == (Classify(attempts[tries - 1], submarine) != Died)
    ensures result == Settle(attempts, submarine, MaxAttempts)
  {
    tries := 0;
    while tries < MaxAttempts
      invariant tries <= MaxAttempts
      invariant forall j :: 0 <= j < tries ==> Classify(attempts[j], submarine) == Stuck
      invariant Settle(attempts, submarine, MaxAttempts) == Settle(attempts[tries..], submarine, MaxAttempts - tries)
    {
      var outcome := Classify(attempts[tries], submarine);
      assert attempts[tries..][1..] == attempts[tries + 1..];
      tries := tries + 1;
      match outcome {
        case Cleared => return Some(true), tries;
        case Died => return Some(false), tries;
        case SubmarineOut => return Some(true), tries;
        case Stuck =>
      }
    }
    return None, tries;
  }

  // ---------------------------------------------------------------------
  // The fleet rotation: `run_stronghold`
  // ---------------------------------------------------------------------

  /** An entry of `parse_fleet_filter()`: a boss fleet with its attempt readings, or anything else. */
  datatype Fleet = BossFleet(attempts: seq<Attempt>) | OtherFleet

  predicate WellFormed(fleets: seq<Fleet>) {
    forall i :: 0 <= i < |fleets| && fleets[i].BossFleet? ==> MaxAttempts <= |fleets[i].attempts|
  }

  /** A fleet whose turn ends `run_stronghold` with True. */
  predicate FleetClears(f: Fleet, submarine: bool) {
    f.BossFleet? && Settle(f.attempts, submarine, MaxAttempts) == Some(true)
  }

  /** Index of the first fleet that clears, if any. */
  function FirstClear(fleets: seq<Fleet>, submarine: bool): (r: Option<nat>)
    ensures r.Some? ==> r.value < |fleets| && FleetClears(fleets[r.value], submarine)
    ensures r.Some? ==> forall j :: 0 <= j < r.value ==> !FleetClears(fleets[j], submarine)
    ensures r.None? ==> forall j :: 0 <= j < |fleets| ==> !FleetClears(fleets[j], submarine)
  {
    if |fleets| == 0 then None
    else if FleetClears(fleets[0], submarine) then Some(0)
    else match FirstClear(fleets[1..], submarine)
      case Some(k) => Some(k + 1)
      case None => None
  }

  /** Number of non-boss entries, each of which costs a submarine-call order. */
  function Others(fleets: seq<Fleet>): nat {
    if |fleets| == 0 then 0
    else Others(fleets[..|fleets| - 1]) + (if fleets[|fleets| - 1].OtherFleet? then 1 else 0)
  }

  /**
   * `run_stronghold(submarine)`: the fleets take turns in filter order;
   * `turns` counts the entries visited and `orders` the submarine calls
   * issued for non-boss entries.
   */
  method RunStronghold(fleets: seq<Fleet>, submarine: bool) returns (ok: bool, turns: nat, orders: nat)
    requires WellFormed(fleets)
    ensures ok == FirstClear(fleets, submarine).Some?
    ensures ok ==> turns == FirstClear(fleets, submarine).value + 1
    ensures !ok ==> turns == |fleets|
    ensures turns <= |fleets| && orders == Others(fleets[..turns])
  {
    turns := 0;
    orders := 0;
    while turns < |fleets|
      invariant turns <= |fleets|
      invariant forall j :: 0 <= j < turns ==> !FleetClears(fleets[j], submarine)
      invariant orders == Others(fleets[..turns])
    {
      var f := fleets[turns];
      assert fleets[..turns + 1][..turns] == fleets[..turns];
      turns := turns + 1;
      if f.OtherFleet? {
        orders := orders + 1;
        continue;
      }
      var result, _ := RunStrongholdOneFleet(f.attempts, submarine);
      if result == Some(true) {
        FirstClearIsFirst(fleets, submarine, turns - 1);
        return true, turns, orders;
      }
    }
    ok := false;
    FirstClearNone(fleets, submarine);
  }

  lemma FirstClearIsFirst(fleets: seq<Fleet>, submarine: bool, k: nat)
    requires k < |fleets| && FleetClears(fleets[k], submarine)
    requires forall j :: 0 <= j < k ==> !FleetClears(fleets[j], submarine)
    ensures FirstClear(fleets, submarine) == Some(k)
  {
  }

  lemma FirstClearNone(fleets: seq<Fleet>, submarine: bool)
    requires forall j :: 0 <= j < |fleets| ==> !FleetClears(fleets[j], submarine)
    ensures FirstClear(fleets, submarine).None?
  {
  }

  /**
   * Three fleets, the first two stuck on every try and the third clearing at
   * once: the rotation succeeds on its third turn.
   */
  lemma RotationExample(submarine: bool)
    ensures var stuck := Attempt(false, false, false);
      var fleets := [BossFleet([stuck, stuck, stuck]), BossFleet([stuck, stuck, stuck]),
                     BossFleet([Attempt(true, false, false), stuck, stuck])];
      FirstClear(fleets, submarine) == Some(2)
  {
    var stuck := Attempt(false, false, false);
    var s3 := [stuck, stuck, stuck];
    assert Settle(s3, submarine, MaxAttempts) == None by {
      SettleSpec(s3, submarine, MaxAttempts);
    }
    var fleets := [BossFleet(s3), BossFleet(s3), BossFleet([Attempt(true, false, false), stuck, stuck])];
    FirstClearIsFirst(fleets, submarine, 2);
  }

  // ---------------------------------------------------------------------
  // `clear_stronghold` and the driver
  // ---------------------------------------------------------------------

  /** The readings one pass of the driver loop consumes. */
  datatype Round = Round(
    found: bool,            // find_siren_stronghold() before the clear
    coinsIfNone: int,       // get_yellow_coins() in the "no stronghold" branch
    fleets: seq<Fleet>,     // the fleet filter and the attempt readings
    nextFound: bool,        // find_siren_stronghold() after the clear
    coinsIfNoNext: int,     // get_yellow_coins() in the "no more stronghold" branch
    coinsAfter: int,        // get_yellow_coins() of the in-loop check
    switched: bool)         // check_task_switch() raised TaskEnd

  /**
   * The clean-up when no (further) stronghold shows: HasStronghold off, then
   * the "no more work" rule for Stronghold.
   */
  method StrongholdGone(c: Config, coins: int) returns (ended: bool)
    requires c.Valid()
    modifies c
    ensures c.Valid() && c.batching == old(c.batching) && !c.hasStronghold
    ensures var d := ExhaustedDecision(Stronghold, c.cl1Enabled, c.smartScheduling, coins, c.preserveSetting, old(c.enabled));
      && ended == DecisionEnds(d)
      && c.enabled == old(c.enabled)[Stronghold := false]
      && var ws := [SetHasStronghold(false), SetEnable(Stronghold, false)] + DecisionWrites(d);
         if c.batching then c.log == old(c.log) && c.pending == old(c.pending) + ws
         else c.log == old(c.log) + Singles(ws)
  {
    c.Apply(SetHasStronghold(false));
    ghost var mid := c.log;
    ghost var midPending := c.pending;
    ghost var dw := DecisionWrites(ExhaustedDecision(Stronghold, c.cl1Enabled, c.smartScheduling, coins, c.preserveSetting, c.enabled));
    ghost var ws := [SetHasStronghold(false), SetEnable(Stronghold, false)] + dw;
    assert ws == [SetHasStronghold(false)] + ([SetEnable(Stronghold, false)] + dw);
    ended := NoMoreWork(c, Stronghold, coins);
    if c.batching {
      assert c.pending == midPending + [SetEnable(Stronghold, false)] + dw;
    } else {
      SinglesAppend([SetHasStronghold(false)], [SetEnable(Stronghold, false)] + dw);
      assert c.log == mid + Singles([SetEnable(Stronghold, false)] + dw);
    }
  }

  /**
   * `clear_stronghold()`. HasStronghold is set inside an outer batch; with no
   * stronghold the clean-up runs in a nested (no-op) batch and all of it is
   * committed together. After a clear the result of the rotation is not
   * looked at; when no further stronghold shows, the clean-up is written
   * write by write.
   */
  method ClearStronghold(c: Config, r: Round) returns (ended: bool)
    requires c.Valid() && !c.batching && WellFormed(r.fleets)
    modifies c
    ensures c.Valid() && !c.batching
    ensures !r.found ==>
      var d := ExhaustedDecision(Stronghold, c.cl1Enabled, c.smartScheduling, r.coinsIfNone, c.preserveSetting, old(c.enabled));
      && ended == DecisionEnds(d) && !c.hasStronghold
      && c.enabled == old(c.enabled)[Stronghold := false]
      && c.log == old(c.log) + [Commit([SetHasStronghold(true), SetHasStronghold(false), SetEnable(Stronghold, false)] + DecisionWrites(d))]
    ensures r.found && r.nextFound ==>
      && !ended && c.hasStronghold && c.enabled == old(c.enabled)
      && c.log == old(c.log) + [Commit([SetHasStronghold(true)])]
    ensures r.found && !r.nextFound ==>
      var d := ExhaustedDecision(Stronghold, c.cl1Enabled, c.smartScheduling, r.coinsIfNoNext, c.preserveSetting, old(c.enabled));
      && ended == DecisionEnds(d) && !c.hasStronghold
      && c.enabled == old(c.enabled)[Stronghold := false]
      && c.log == old(c.log) + [Commit([SetHasStronghold(true)])] +
           Singles([SetHasStronghold(false), SetEnable(Stronghold, false)] + DecisionWrites(d))
  {
    var outer := c.BeginBatch();
    c.Apply(SetHasStronghold(true));
    assert c.pending == [SetHasStronghold(true)];
    if !r.found {
      var inner := c.BeginBatch();
      ghost var dw := DecisionWrites(ExhaustedDecision(Stronghold, c.cl1Enabled, c.smartScheduling, r.coinsIfNone, c.preserveSetting, c.enabled));
      ended := StrongholdGone(c, r.coinsIfNone);
      assert c.pending == [SetHasStronghold(true), SetHasStronghold(false), SetEnable(Stronghold, false)] + dw;
      c.EndBatch(inner);
      c.EndBatch(outer);
      return;
    }
    c.EndBatch(outer);
    var _, _, _ := RunStronghold(r.fleets, c.submarineEveryCombat);
    if !r.nextFound {
      ended := StrongholdGone(c, r.coinsIfNoNext);
      return;
    }
    ended := false;
  }

  // The specification of the driver loop. Every pass reads the flags only
  // through the sibling the scan picks, and no pass that lets the loop go on
  // changes that sibling, so a run is a function of the sibling at its start.

  /** The hand-off `clear_stronghold()` runs when no (further) stronghold shows, once the scan has picked `sibling`. */
  function GoneDecision(c: Config, r: Round, sibling: Option<CoinTask>): Decision
  {
    DecisionFor(c.cl1Enabled, c.smartScheduling, if r.found then r.coinsIfNoNext else r.coinsIfNone, c.preserveSetting, sibling)
  }

  /** `clear_stronghold()` ends the task: no (further) stronghold, and the hand-off stops or falls back to CL1. */
  predicate ClearEnds(c: Config, r: Round, sibling: Option<CoinTask>)
  {
    !(r.found && r.nextFound) && DecisionEnds(GoneDecision(c, r, sibling))
  }

  /** What `clear_stronghold()` commits on one pass, branch by branch. */
  function ClearLog(c: Config, r: Round, sibling: Option<CoinTask>): seq<Effect>
  {
    if !r.found then
      [Commit([SetHasStronghold(true), SetHasStronghold(false), SetEnable(Stronghold, false)] + DecisionWrites(GoneDecision(c, r, sibling)))]
    else if r.nextFound then [Commit([SetHasStronghold(true)])]
    else [Commit([SetHasStronghold(true)])] + Singles([SetHasStronghold(false), SetEnable(Stronghold, false)] + DecisionWrites(GoneDecision(c, r, sibling)))
  }

  /** How one pass of the `os_stronghold()` loop leaves it: None when the loop goes on. Every way out is a task end. */
  function PassExit(c: Config, r: Round, sibling: Option<CoinTask>): Option<Exit>
  {
    if ClearEnds(c, r, sibling) then Some(TaskEnded)
    else if RevertFires(c.cl1Enabled, c.preserveSetting, c.returnSetting, r.coinsAfter) then Some(TaskEnded)
    else if r.switched then Some(TaskEnded)
    else None
  }

  /** What one pass commits: the clear, then the revert notice and switch when it fires. */
  function PassLog(c: Config, r: Round, sibling: Option<CoinTask>): seq<Effect>
  {
    ClearLog(c, r, sibling) +
    if !ClearEnds(c, r, sibling) && RevertFires(c.cl1Enabled, c.preserveSetting, c.returnSetting, r.coinsAfter)
    then c.PushLog(RevertTitle) + [Commit(RevertWrites)]
    else []
  }

  /** The passes a run over `rounds` makes, each read against the same sibling. */
  function Passes(c: Config, rounds: seq<Round>, sibling: Option<CoinTask>): (ps: seq<PassResult>)
    ensures |ps| == |rounds|
  {
    if |rounds| == 0 then []
    else Passes(c, rounds[..|rounds| - 1], sibling) + [PassResult(PassExit(c, rounds[|rounds| - 1], sibling), PassLog(c, rounds[|rounds| - 1], sibling))]
  }

  /** Pass `k` of a run is the pass `PassExit` and `PassLog` describe for reading `k`. */
  lemma {:induction false} PassesAt(c: Config, rounds: seq<Round>, sibling: Option<CoinTask>, k: nat)
    requires k < |rounds|
    ensures Passes(c, rounds, sibling)[k] == PassResult(PassExit(c, rounds[k], sibling), PassLog(c, rounds[k], sibling))
  {
    if k < |rounds| - 1 {
      PassesAt(c, rounds[..|rounds| - 1], sibling, k);
    }
  }

  /** A run of the loop over `rounds` that started with `sibling` as the scan's pick: see `Runs.LoopOutcome`. */
  predicate RunOutcome(c: Config, rounds: seq<Round>, sibling: Option<CoinTask>, log0: seq<Effect>, log: seq<Effect>, exit: Exit, clears: nat)
  {
    LoopOutcome(Passes(c, rounds, sibling), log0, log, exit, clears)
  }

  /** A pass only ever ends the task, and it goes on exactly when neither the clear, the coin check nor a task switch ends it. */
  lemma PassExitSpec(c: Config, r: Round, sibling: Option<CoinTask>)
    ensures PassExit(c, r, sibling).None? || PassExit(c, r, sibling) == Some(TaskEnded)
    ensures PassExit(c, r, sibling).None? <==>
      !ClearEnds(c, r, sibling) && !RevertFires(c.cl1Enabled, c.preserveSetting, c.returnSetting, r.coinsAfter) && !r.switched
  {
  }

  /**
   * What a run promises as a whole: every pass but the last was ended
   * neither by its clear, nor by the in-loop coin check, nor by a task
   * switch; the last pass ended the task in one of those three ways, and
   * when it was the coin check its notice and revert batch close the log;
   * no human takeover is asked for and the loop never returns normally.
   */
  lemma RunFacts(c: Config, rounds: seq<Round>, sibling: Option<CoinTask>, log0: seq<Effect>, log: seq<Effect>, exit: Exit, clears: nat)
    requires RunOutcome(c, rounds, sibling, log0, log, exit, clears)
    ensures exit == TaskEnded || exit == OutOfRounds
    ensures |rounds| > 0 ==> clears >= 1
    ensures forall k :: 0 <= k < clears - 1 ==>
      !ClearEnds(c, rounds[k], sibling) && !RevertFires(c.cl1Enabled, c.preserveSetting, c.returnSetting, rounds[k].coinsAfter) && !rounds[k].switched
    ensures exit == OutOfRounds ==> forall k :: 0 <= k < |rounds| ==>
      !ClearEnds(c, rounds[k], sibling) && !RevertFires(c.cl1Enabled, c.preserveSetting, c.returnSetting, rounds[k].coinsAfter) && !rounds[k].switched
    ensures exit == TaskEnded ==>
      var r := rounds[clears - 1];
      ClearEnds(c, r, sibling) || RevertFires(c.cl1Enabled, c.preserveSetting, c.returnSetting, r.coinsAfter) || r.switched
    ensures exit == TaskEnded ==>
      var r := rounds[clears - 1];
      !ClearEnds(c, r, sibling) && RevertFires(c.cl1Enabled, c.preserveSetting, c.returnSetting, r.coinsAfter) ==>
        log == log0 + Committed(Passes(c, rounds, sibling), clears - 1) + ClearLog(c, r, sibling) + c.PushLog(RevertTitle) + [Commit(RevertWrites)]
  {
    var ps := Passes(c, rounds, sibling);
    GoneOn(c, rounds, sibling, if exit == OutOfRounds then clears else clears - 1);
    if exit != OutOfRounds {
      var r := rounds[clears - 1];
      PassesAt(c, rounds, sibling, clears - 1);
      PassExitSpec(c, r, sibling);
      LastPass(ps, log0, log, exit, clears);
      if !ClearEnds(c, r, sibling) && RevertFires(c.cl1Enabled, c.preserveSetting, c.returnSetting, r.coinsAfter) {
        RevertPassLog(c, r, sibling, log0 + Committed(ps, clears - 1));
      }
    }
  }

  /** The first `n` passes of a run went on: none was ended by its clear, its coin check or a task switch. */
  lemma GoneOn(c: Config, rounds: seq<Round>, sibling: Option<CoinTask>, n: nat)
    requires n <= |rounds|
    requires forall k :: 0 <= k < n ==> Passes(c, rounds, sibling)[k].exit.None?
    ensures forall k :: 0 <= k < n ==>
      !ClearEnds(c, rounds[k], sibling) && !RevertFires(c.cl1Enabled, c.preserveSetting, c.returnSetting, rounds[k].coinsAfter) && !rounds[k].switched
  {
    forall k | 0 <= k < n
      ensures !ClearEnds(c, rounds[k], sibling) && !RevertFires(c.cl1Enabled, c.preserveSetting, c.returnSetting, rounds[k].coinsAfter) && !rounds[k].switched
    {
      PassesAt(c, rounds, sibling, k);
      PassExitSpec(c, rounds[k], sibling);
    }
  }

  /** The log of a pass whose clear went on and whose coin check fired. */
  lemma RevertPassLog(c: Config, r: Round, sibling: Option<CoinTask>, before: seq<Effect>)
    requires !ClearEnds(c, r, sibling) && RevertFires(c.cl1Enabled, c.preserveSetting, c.returnSetting, r.coinsAfter)
    ensures before + PassLog(c, r, sibling) == before + ClearLog(c, r, sibling) + c.PushLog(RevertTitle) + [Commit(RevertWrites)]
  {
    var cl := ClearLog(c, r, sibling);
    var tail := c.PushLog(RevertTitle) + [Commit(RevertWrites)];
    assert PassLog(c, r, sibling) == cl + tail;
    assert before + (cl + tail) == before + cl + c.PushLog(RevertTitle) + [Commit(RevertWrites)];
  }

  /**
   * A clear with a further stronghold showing, CL1 on and 250000 yellow
   * coins (above the default 200000 threshold) after it: the pass commits
   * HasStronghold, the revert notice and the switch to CL1, and ends the task.
   */
  lemma InLoopRevertExample(c: Config, sibling: Option<CoinTask>, fleets: seq<Fleet>, switched: bool)
    requires c.cl1Enabled && c.preserveSetting.None? && c.returnSetting.None?
    ensures var r := Round(true, 0, fleets, true, 0, 250000, switched);
      && PassExit(c, r, sibling) == Some(TaskEnded)
      && PassLog(c, r, sibling) == [Commit([SetHasStronghold(true)])] + c.PushLog(RevertTitle) + [Commit(RevertWrites)]
  {
    assert RevertFires(true, None, None, 250000);
  }

  /** `ClearStronghold` in terms of `ClearEnds` and `ClearLog`. */
  method ClearStep(c: Config, r: Round) returns (ended: bool)
    requires c.Valid() && !c.batching && WellFormed(r.fleets)
    modifies c
    ensures c.Valid() && !c.batching
    ensures ended == ClearEnds(c, r, Sibling(Stronghold, old(c.enabled)))
    ensures c.log == old(c.log) + ClearLog(c, r, Sibling(Stronghold, old(c.enabled)))
    ensures c.hasStronghold == (r.found && r.nextFound)
    ensures Sibling(Stronghold, c.enabled) == Sibling(Stronghold, old(c.enabled))
    ensures OnlyDisabled(old(c.enabled), c.enabled)
  {
    SiblingIgnoresOwnFlag(Stronghold, c.enabled, false);
    ended := ClearStronghold(c, r);
  }

  /**
   * One pass of the `os_stronghold()` loop: clear, the in-loop coin check
   * (only with CL1 on), then the task-switch check.
   */
  method StrongholdPass(c: Config, rounds: seq<Round>, n: nat, ghost sibling: Option<CoinTask>) returns (result: Option<Exit>)
    requires c.Valid() && !c.batching && n < |rounds| && WellFormed(rounds[n].fleets)
    requires Sibling(Stronghold, c.enabled) == sibling
    modifies c
    ensures c.Valid() && !c.batching
    ensures result == Passes(c, rounds, sibling)[n].exit && result != Some(OutOfRounds)
    ensures c.log == old(c.log) + Passes(c, rounds, sibling)[n].log
    ensures result.None? ==> Sibling(Stronghold, c.enabled) == sibling
    ensures OnlyDisabled(old(c.enabled), c.enabled)
  {
    PassesAt(c, rounds, sibling, n);
    result := StrongholdRound(c, rounds[n], sibling);
  }

  /** One pass of the loop over reading `r`, in terms of `PassExit` and `PassLog`. */
  method StrongholdRound(c: Config, r: Round, ghost sibling: Option<CoinTask>) returns (result: Option<Exit>)
    requires c.Valid() && !c.batching && WellFormed(r.fleets)
    requires Sibling(Stronghold, c.enabled) == sibling
    modifies c
    ensures c.Valid() && !c.batching
    ensures result == PassExit(c, r, sibling) && result != Some(OutOfRounds)
    ensures c.log == old(c.log) + PassLog(c, r, sibling)
    ensures result.None? ==> Sibling(Stronghold, c.enabled) == sibling
    ensures OnlyDisabled(old(c.enabled), c.enabled)
  {
    var ended := ClearStep(c, r);
    if ended {
      return Some(TaskEnded);
    }
    if c.cl1Enabled {
      ended := CheckRevertOutsideBatch(c, RevertTitle, r.coinsAfter);
      if ended {
        return Some(TaskEnded);
      }
    }
    if r.switched {
      return Some(TaskEnded);
    }
    return None;
  }

  /**
   * `os_stronghold()`: the coin check before the loop (only with CL1 on and
   * the check not disabled), then the loop, which has no normal exit.
   */
  method OsStronghold(c: Config, preCoins: int, rounds: seq<Round>) returns (exit: Exit, clears: nat)
    requires c.Valid() && !c.batching
    requires forall k :: 0 <= k < |rounds| ==> WellFormed(rounds[k].fleets)
    modifies c
    ensures c.Valid() && !c.batching
    ensures exit == TaskEnded || exit == OutOfRounds
    ensures clears <= |rounds| && (exit == OutOfRounds ==> clears == |rounds|)
    ensures OnlyDisabled(old(c.enabled), c.enabled)
    ensures RevertFires(c.cl1Enabled, c.preserveSetting, c.returnSetting, preCoins) ==>
      exit == TaskEnded && clears == 0 && c.log == old(c.log) + c.PushLog(RevertTitle) + [Commit(RevertWrites)]
    ensures !RevertFires(c.cl1Enabled, c.preserveSetting, c.returnSetting, preCoins) ==>
      RunOutcome(c, rounds, Sibling(Stronghold, old(c.enabled)), old(c.log), c.log, exit, clears)
    ensures !RevertFires(c.cl1Enabled, c.preserveSetting, c.returnSetting, preCoins) && |rounds| > 0 ==> clears >= 1
    ensures var sibling := Sibling(Stronghold, old(c.enabled));
      !RevertFires(c.cl1Enabled, c.preserveSetting, c.returnSetting, preCoins) ==> forall k :: 0 <= k < clears - 1 ==>
        !ClearEnds(c, rounds[k], sibling) && !RevertFires(c.cl1Enabled, c.preserveSetting, c.returnSetting, rounds[k].coinsAfter) && !rounds[k].switched
    ensures var sibling := Sibling(Stronghold, old(c.enabled));
      !RevertFires(c.cl1Enabled, c.preserveSetting, c.returnSetting, preCoins) && exit == TaskEnded ==>
        0 < clears &&
        var r := rounds[clears - 1];
        && (ClearEnds(c, r, sibling) || RevertFires(c.cl1Enabled, c.preserveSetting, c.returnSetting, r.coinsAfter) || r.switched)
        && (!ClearEnds(c, r, sibling) && RevertFires(c.cl1Enabled, c.preserveSetting, c.returnSetting, r.coinsAfter) ==>
              c.log == old(c.log) + Committed(Passes(c, rounds, sibling), clears - 1)
                + ClearLog(c, r, sibling) + c.PushLog(RevertTitle) + [Commit(RevertWrites)])
  {
    if c.cl1Enabled {
      var th := Resolve(c.cl1Enabled, c.preserveSetting, c.returnSetting);
      if th.threshold.Some? {
        var ended := CheckRevertOutsideBatch(c, RevertTitle, preCoins);
        if ended {
          return TaskEnded, 0;
        }
      }
    }
    exit, clears := StrongholdLoop(c, rounds);
    RunFacts(c, rounds, Sibling(Stronghold, old(c.enabled)), old(c.log), c.log, exit, clears);
  }

  /** The `while True` loop of `os_stronghold()`, one `StrongholdPass` per reading. */
  method StrongholdLoop(c: Config, rounds: seq<Round>) returns (exit: Exit, clears: nat)
    requires c.Valid() && !c.batching
    requires forall k :: 0 <= k < |rounds| ==> WellFormed(rounds[k].fleets)
    modifies c
    ensures c.Valid() && !c.batching
    ensures RunOutcome(c, rounds, Sibling(Stronghold, old(c.enabled)), old(c.log), c.log, exit, clears)
    ensures OnlyDisabled(old(c.enabled), c.enabled)
  {
    ghost var sibling := Sibling(Stronghold, c.enabled);
    ghost var ps := Passes(c, rounds, sibling);
    clears := 0;
    while clears < |rounds|
      invariant c.Valid() && !c.batching
      invariant clears <= |rounds|
      invariant Sibling(Stronghold, c.enabled) == sibling
      invariant OnlyDisabled(old(c.enabled), c.enabled)
      invariant c.log == old(c.log) + Committed(ps, clears)
      invariant forall k :: 0 <= k < clears ==> ps[k].exit.None?
    {
      Step(ps, old(c.log), clears, c.log);
      var result := StrongholdPass(c, rounds, clears, sibling);
      clears := clears + 1;
      if result.Some? {
        exit := result.value;
        return;
      }
    }
    exit := OutOfRounds;
    RunsOut(ps, old(c.log), c.log);
  }
}
