/**
 * The slice of the bot's configuration object that the coin-task hand-off
 * reads and writes: the knobs, the per-task Scheduler.Enable flags,
 * OpsiStronghold.HasStronghold, the `multi_set()` batch, and the record of
 * what was written out (`log`).
 */
module Scheduler {
  import opened Wrappers
  import opened CoinTasks
  import Notify

  /** One configuration write. */
  datatype Write =
    | SetEnable(task: CoinTask, on: bool)               // cross_set('<Task>.Scheduler.Enable', on)
    | SetHasStronghold(on: bool)                        // OpsiStronghold_HasStronghold = on
    | Call(target: TaskName)                            // task_call(target)
    | Delay(minutes: Option<nat>, serverUpdate: bool)   // task_delay(minute=..., server_update=...)

  /** What became visible outside the task: a committed group of writes, or a push. */
  datatype Effect = Commit(writes: seq<Write>) | Push(title: string)

  /** How a task method left: it returned, or an exception ended it. */
  datatype Exit =
    | Returned        // normal return
    | TaskEnded       // TaskEnd, raised by task_stop or check_task_switch
    | HumanTakeover   // RequestHumanTakeover
    | OutOfRounds     // the oracle for an endless driver loop ran out (model only)

  /** Each write committed on its own, as happens outside a batch. */
  function Singles(ws: seq<Write>): (es: seq<Effect>)
    ensures |es| == |ws| && forall i :: 0 <= i < |ws| ==> es[i] == Commit([ws[i]])
  {
    if |ws| == 0 then [] else [Commit([ws[0]])] + Singles(ws[1..])
  }

  lemma {:induction false} SinglesAppend(a: seq<Write>, b: seq<Write>)
    ensures Singles(a + b) == Singles(a) + Singles(b)
  {
  }

  /** No push among these effects, only committed writes. */
  predicate OnlyCommits(es: seq<Effect>) {
    forall k :: 0 <= k < |es| ==> es[k].Commit?
  }

  class Config {
    const cl1Enabled: bool                  // is_cl1_enabled
    const smartScheduling: bool             // OpsiScheduling_EnableSmartScheduling
    const notifyOpsiMail: bool              // OpsiGeneral_NotifyOpsiMail
    const pushConfig: string                // Error_OnePushConfig ("" also stands for None)
    const configName: Option<string>        // config_name attribute, if present
    const preserveSetting: Option<int>      // OpsiHazard1Leveling.OperationCoinsPreserve
    const returnSetting: Option<int>        // OpsiScheduling.OperationCoinsReturnThreshold
    const forceRun: bool                    // OpsiObscure_ForceRun
    const submarineEveryCombat: bool        // OpsiStronghold_SubmarineEveryCombat

    var enabled: Flags                      // <Task>.Scheduler.Enable of the coin tasks
    var hasStronghold: bool                 // OpsiStronghold_HasStronghold
    var batching: bool                      // inside a multi_set() block
    var pending: seq<Write>                 // writes held back by the open batch
    var log: seq<Effect>                    // what has been committed or pushed, in order

    ghost predicate Valid()
      reads this
    {
      !batching ==> pending == []
    }

    constructor (cl1Enabled: bool, smartScheduling: bool, notifyOpsiMail: bool, pushConfig: string,
                 configName: Option<string>, preserveSetting: Option<int>, returnSetting: Option<int>,
                 forceRun: bool, submarineEveryCombat: bool, enabled: Flags, hasStronghold: bool)
      ensures Valid() && !batching && log == []
      ensures this.cl1Enabled == cl1Enabled && this.smartScheduling == smartScheduling
      ensures this.notifyOpsiMail == notifyOpsiMail && this.pushConfig == pushConfig
      ensures this.configName == configName && this.preserveSetting == preserveSetting
      ensures this.returnSetting == returnSetting && this.forceRun == forceRun
      ensures this.submarineEveryCombat == submarineEveryCombat
      ensures this.enabled == enabled && this.hasStronghold == hasStronghold
    {
      this.cl1Enabled := cl1Enabled;
      this.smartScheduling := smartScheduling;
      this.notifyOpsiMail := notifyOpsiMail;
      this.pushConfig := pushConfig;
      this.configName := configName;
      this.preserveSetting := preserveSetting;
      this.returnSetting := returnSetting;
      this.forceRun := forceRun;
      this.submarineEveryCombat := submarineEveryCombat;
      this.enabled := enabled;
      this.hasStronghold := hasStronghold;
      batching := false;
      pending := [];
      log := [];
    }

    /**
     * Performs one write. The in-memory value changes at once; the write is
     * committed by itself, or held back until the open batch closes.
     */
    method Apply(w: Write)
      requires Valid()
      modifies this
      ensures Valid() && batching == old(batching)
      ensures enabled == if w.SetEnable? then old(enabled)[w.task := w.on] else old(enabled)
      ensures hasStronghold == if w.SetHasStronghold? then w.on else old(hasStronghold)
      ensures batching ==> log == old(log) && pending == old(pending) + [w]
      ensures !batching ==> log == old(log) + [Commit([w])] && pending == []
    {
      match w {
        case SetEnable(t, on) => enabled := enabled[t := on];
        case SetHasStronghold(on) => hasStronghold := on;
        case Call(_) =>
        case Delay(_, _) =>
      }
      if batching {
        pending := pending + [w];
      } else {
        log := log + [Commit([w])];
      }
    }

    /**
     * Enters `with multi_set():`. Only the outermost block opens a batch;
     * a nested block is a no-op, and `outer` says which case this was.
     */
    method BeginBatch() returns (outer: bool)
      requires Valid()
      modifies this
      ensures Valid() && batching
      ensures outer == !old(batching)
      ensures pending == old(pending) && log == old(log)
      ensures enabled == old(enabled) && hasStronghold == old(hasStronghold)
    {
      outer := !batching;
      batching := true;
    }

    /**
     * Leaves the block (normally or through an exception). The block that
     * opened the batch commits everything held back as one group.
     */
    method EndBatch(outer: bool)
      requires Valid() && batching
      modifies this
      ensures Valid() && batching == !outer
      ensures outer ==> pending == []
      ensures outer ==> log == old(log) + (if old(pending) == [] then [] else [Commit(old(pending))])
      ensures !outer ==> pending == old(pending) && log == old(log)
      ensures enabled == old(enabled) && hasStronghold == old(hasStronghold)
    {
      if outer {
        if pending != [] {
          log := log + [Commit(pending)];
        }
        pending := [];
        batching := false;
      }
    }

    /** `notify_push(title, ...)`: appends the push when every gate lets it through; delivery failures are swallowed. */
    method NotifyPush(title: string)
      requires Valid()
      modifies this
      ensures Valid() && batching == old(batching) && pending == old(pending)
      ensures enabled == old(enabled) && hasStronghold == old(hasStronghold)
      ensures log == old(log) + PushLog(title)
    {
      var pushed := Notify.PushedTitle(smartScheduling, notifyOpsiMail, pushConfig, configName, title);
      if pushed.Some? {
        log := log + [Push(pushed.value)];
      }
    }

    /** The effects `NotifyPush(title)` appends. */
    function PushLog(title: string): seq<Effect> {
      match Notify.PushedTitle(smartScheduling, notifyOpsiMail, pushConfig, configName, title)
      case Some(t) => [Push(t)]
      case None => []
    }
  }
}
