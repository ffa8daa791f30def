/**
 * The endless `while True` loops of the coin-task drivers, seen as a run
 * over the passes the readings allow: each pass either lets the loop go on
 * or leaves it with an exit, and commits its own effects to the log.
 */
module Runs {
  import opened Wrappers
  import opened Scheduler

  /** What one pass of a driver loop does: how it leaves the loop (None: it goes on) and what it commits. */
  datatype PassResult = PassResult(exit: Option<Exit>, log: seq<Effect>)

  /** The effects of the first `n` passes, in order. */
  function Committed(ps: seq<PassResult>, n: nat): seq<Effect>
    requires n <= |ps|
  {
    if n == 0 then [] else Committed(ps, n - 1) + ps[n - 1].log
  }

  /**
   * A run over the passes `ps` that made `clears` passes, left with `exit`
   * and took the log from `log0` to `log`: every pass but the last went on,
   * the last one is the reason for `exit` unless the readings ran out, and
   * the log grew by exactly what the passes commit.
   */
  predicate LoopOutcome(ps: seq<PassResult>, log0: seq<Effect>, log: seq<Effect>, exit: Exit, clears: nat)
  {
    && clears <= |ps|
    && log == log0 + Committed(ps, clears)
    && (forall k :: 0 <= k < clears - 1 ==> ps[k].exit.None?)
    && (exit == OutOfRounds ==> clears == |ps| && forall k :: 0 <= k < clears ==> ps[k].exit.None?)
    && (exit != OutOfRounds ==> 0 < clears && ps[clears - 1].exit == Some(exit))
  }

  /**
   * One more pass after `n` passes that went on: either the run goes on with
   * one more pass behind it, or this pass completes the run (a pass never
   * leaves for want of readings: only the loop itself does).
   */
  lemma Step(ps: seq<PassResult>, log0: seq<Effect>, n: nat, log: seq<Effect>)
    requires n < |ps|
    requires log == log0 + Committed(ps, n)
    requires forall k :: 0 <= k < n ==> ps[k].exit.None?
    ensures log + ps[n].log == log0 + Committed(ps, n + 1)
    ensures ps[n].exit.None? ==> forall k :: 0 <= k < n + 1 ==> ps[k].exit.None?
    ensures ps[n].exit.Some? && ps[n].exit != Some(OutOfRounds) ==> LoopOutcome(ps, log0, log + ps[n].log, ps[n].exit.value, n + 1)
  {
    var done := Committed(ps, n);
    assert Committed(ps, n + 1) == done + ps[n].log;
    assert (log0 + done) + ps[n].log == log0 + (done + ps[n].log);
  }

  /** A run that left with an exit ends with the log of its last pass. */
  lemma LastPass(ps: seq<PassResult>, log0: seq<Effect>, log: seq<Effect>, exit: Exit, clears: nat)
    requires LoopOutcome(ps, log0, log, exit, clears) && exit != OutOfRounds
    ensures log == log0 + Committed(ps, clears - 1) + ps[clears - 1].log
  {
    var done := Committed(ps, clears - 1);
    assert Committed(ps, clears) == done + ps[clears - 1].log;
    assert log0 + (done + ps[clears - 1].log) == (log0 + done) + ps[clears - 1].log;
  }

  /** Running out of readings after passes that all went on completes a run. */
  lemma RunsOut(ps: seq<PassResult>, log0: seq<Effect>, log: seq<Effect>)
    requires log == log0 + Committed(ps, |ps|)
    requires forall k :: 0 <= k < |ps| ==> ps[k].exit.None?
    ensures LoopOutcome(ps, log0, log, OutOfRounds, |ps|)
  {
  }

  /** A pass that changes nothing and goes on adds nothing: three of them leave the log as it was. */
  lemma QuietPasses(log0: seq<Effect>)
    ensures LoopOutcome([PassResult(None, []), PassResult(None, []), PassResult(None, [])], log0, log0, OutOfRounds, 3)
    ensures !LoopOutcome([PassResult(None, []), PassResult(None, []), PassResult(None, [])], log0, log0, OutOfRounds, 2)
  {
    var ps := [PassResult(None, []), PassResult(None, []), PassResult(None, [])];
    assert Committed(ps, 1) == [];
    assert Committed(ps, 2) == [];
    assert Committed(ps, 3) == [];
  }
}
