# Operation Siren coin-task scheduling and CL1 monthly statistics, in Dafny

This project models two parts of the Operation Siren (OpSi) automation.

**The coin tasks.** OpsiObscure, OpsiAbyssal and OpsiStronghold farm
yellow coins for the CL1 levelling task (OpsiHazard1Leveling). Each keeps
its own copy of one hand-off policy:

- the **return threshold**, built from the CL1 preserve value and
  OperationCoinsReturnThreshold;
- the **revert check**. With enough coins it pushes a notice, disables all
  four coin tasks in one `multi_set` batch, calls CL1 and stops;
- the **sibling scan**, which calls the next enabled coin task in the fixed
  order Obscure, Abyssal, Stronghold, MeowfficerFarming, wrapping round;
- the **"no more work" branch**. It disables the task, then hands off to a
  sibling only when CL1 and smart scheduling are on and the coins are below
  the preserve floor.

Three driver differences are modelled:

- Obscure's loop honours ForceRun;
- Abyssal's loop never runs the coin check and delays itself after a boss;
- Stronghold rotates its fleets, with up to three attacks per fleet.

**The monthly statistics** (`opsi_month.py`) are modelled as integer
bookkeeping:

- the month key, and `summary` with coercion to 0;
- the integer results of `get_detailed_summary`;
- two of the three stages of `compute_monthly_cl1_akashi_ap`: the
  statistics file first, then the ActionPoint log lines;
- the per-instance object cache.

**How the model works.** The configuration is a class, `Scheduler.Config`.
It holds:

- the read-only knobs;
- the enable flags of the coin tasks;
- OpsiStronghold_HasStronghold;
- the state of an open `multi_set` batch;
- `log`, the sequence of effects that became visible: committed groups of
  writes (`cross_set`, `task_call`, `task_delay`), and pushes.

Batches nest. Only the outermost block commits, and it commits even when the
task ends inside it. `task_stop()` and `check_task_switch()` end a task by
raising TaskEnd, so a method's result says how it left (`Exit`). Everything
the game or the clock supplies is an input: coin readings, storage and
stronghold searches, attack outcomes, `get_os_reset_remain()` and task
switches. An endless `while True` driver loop runs for one pass per supplied
reading; the `OutOfRounds` exit marks the readings running out.

Python's `int()` on decoded JSON values is modelled in `PyJson`:

- booleans give 0 or 1;
- floats are truncated;
- strings are parsed after ASCII whitespace is stripped. A sign and
  single underscores between digits are allowed;
- anything else raises.

## Model

| member | source | states |
|---|---|---|
| CoinTasks.IndexOf | module/os/tasks/stronghold.py:144-150 | `all_coin_tasks.index(t)`: every coin task occurs in the fixed order exactly once, at the returned index |
| CoinTasks.Rotation | module/os/tasks/stronghold.py:151-165 | the candidates the two loops visit: first the tasks after the caller, in order, then the tasks before it; the caller is never among them and every other task is |
| CoinTasks.FirstEnabled | module/os/tasks/stronghold.py:151-165 | the index found is enabled and every candidate before it is disabled; None exactly when all candidates are disabled |
| CoinTasks.SiblingSpec | module/os/tasks/stronghold.py:136-170 | the sibling called is another task, is enabled, and every task tried before it is disabled; there is none (CL1 is called) exactly when every other coin task is disabled |
| CoinTasks.SiblingIgnoresOwnFlag | module/os/tasks/stronghold.py:151-165 | the caller's own enable flag never changes the scan's result, so disabling it first does not matter |
| CoinTasks.ScanSiblings | module/os/tasks/stronghold.py:151-165 | the two index loops with early return find exactly the sibling the rotation specifies |
| Threshold.Resolve | module/os/tasks/stronghold.py:58-93 | (None, None) with CL1 off; (None, preserve) when the return setting is 0; (2 × preserve, preserve) when it is unset; (preserve + setting, preserve) otherwise; preserve defaults to 100000; the same function is at abyssal.py:56-91 and obscure.py:55-90 |
| Threshold.DefaultThreshold | module/os/tasks/stronghold.py:70-93 | with both settings absent the threshold is 200000 and the check fires at 200000 coins and above, never below |
| Threshold.RevertAbovePreserve | module/os/tasks/stronghold.py:85-93 | with a non-negative margin a revert never fires below the preserve floor |
| Threshold.RevertMonotone | module/os/tasks/stronghold.py:114 | a fired revert stays fired for any larger balance |
| Notify.FormatTitleHeader | module/os/tasks/stronghold.py:38-42 | every formatted title begins with "[Alas <name>]" |
| Notify.TaggedEqualsUntagged | module/os/tasks/stronghold.py:39-42 | "[Alas] T" and "T" format to the same title |
| Notify.FormatTitleKeepsBody | module/os/tasks/stronghold.py:39-42 | after the header comes the title without its first six characters when it starts with "[Alas]", and a space plus the whole title otherwise |
| Notify.FormatTitleExamples | module/os/tasks/stronghold.py:39-42 | "[Alas] X" becomes "[Alas <Foo>] X" and "Y" becomes "[Alas <Foo>] Y" |
| Notify.NullProviderBlocks | module/os/tasks/stronghold.py:32-35 | a push configuration containing "provider: null" or "provider:null" anywhere never pushes |
| Notify.PushedTitle | module/os/tasks/stronghold.py:10-42 | a title is pushed exactly when smart scheduling and NotifyOpsiMail are on and the push configuration is non-empty and names no null provider; it then carries the instance header (config_name, "Alas" by default) |
| Scheduler.Config.NotifyPush | module/os/tasks/stronghold.py:10-56 | the push, if the gates let it through, is appended to the log; no flag or batch state changes and delivery failures do not escape |
| Scheduler.Config.BeginBatch | module/os/tasks/stronghold.py:184-194 | entering `multi_set()` opens a batch only when none is open, and reports whether it did |
| Scheduler.Config.EndBatch | module/os/tasks/stronghold.py:184-209 | leaving the block that opened the batch commits every held-back write as one group; leaving a nested block changes nothing |
| HandOff.RevertWritesDisableAll | module/os/tasks/stronghold.py:124-130 | after the revert batch no coin task is enabled, whatever the flags were, and CL1 is the only task called, as the last write |
| HandOff.ExhaustedDecisionSpec | module/os/tasks/stronghold.py:194-209 | the rule does something other than stop exactly when CL1 and smart scheduling are on and coins are strictly below preserve; a sibling called is another enabled task; CL1 is called exactly when additionally no other coin task is enabled |
| HandOff.GapBetweenPreserveAndThreshold | module/os/tasks/stronghold.py:198-205 | between the preserve floor and the return threshold an exhausted task only stops, and the revert check does not fire |
| HandOff.HandOffExamples | module/os/tasks/obscure.py:133-167 | from Obscure with only Stronghold enabled Stronghold is called; with nothing enabled CL1 is called and the task stops |
| HandOff.SmartSchedulingGate | module/os/tasks/abyssal.py:179-191 | with smart scheduling off an exhausted task stops whatever its coins; Abyssal at 50000 coins with the default preserve hands off |
| HandOff.DecisionNeverCallsSelf | module/os/tasks/stronghold.py:151-165 | the "no more work" branch never calls the task that runs it |
| HandOff.CheckRevert | module/os/tasks/stronghold.py:95-134 | the task ends exactly when CL1 is on, the threshold is set and coins reach it; then the push comes first and the four disables and the CL1 call are committed as one batch; otherwise flags and log are untouched; the same method is at abyssal.py:93-132 and obscure.py:92-131 |
| HandOff.CheckRevertOutsideBatch | module/os/tasks/stronghold.py:95-134 | called outside a batch, as the drivers call it: ends exactly when the revert fires, and then leaves only the notice, one commit of the revert batch and every coin task disabled; otherwise nothing changes |
| HandOff.TryOtherCoinTasks | module/os/tasks/stronghold.py:136-170 | calls the scanned sibling and returns, or calls CL1 and ends the task when there is none; flags are not changed; the same method is at abyssal.py:134-168 and obscure.py:133-167 |
| HandOff.NoMoreWork | module/os/tasks/stronghold.py:228-245 | disables the caller's flag, then writes the decision's call; the task ends unless a sibling was called; the writes join an open batch or commit one by one |
| Stronghold.RevertTitleFormat | module/os/tasks/stronghold.py:121 | the Stronghold notice is pushed as "[Alas <name>] 塞壬要塞 - 黄币充足" |
| Stronghold.SiblingOrder | module/os/tasks/stronghold.py:144-165 | from Stronghold the scan tries MeowfficerFarming, then Obscure, then Abyssal |
| Stronghold.SettleSpec | module/os/tasks/stronghold.py:288-321 | the fleet's result is None exactly when every try stuck; otherwise the first non-stuck try decides it: True on a clear or an empty submarine, False when the fleet died |
| Stronghold.RunStrongholdOneFleet | module/os/tasks/stronghold.py:272-321 | one to three attacks, every one but the last stuck; None exactly after three stucks; otherwise True unless the last attack left the fleet needing repair |
| Stronghold.FirstClear | module/os/tasks/stronghold.py:339-352 | the first fleet whose turn returns True, with every fleet before it failing; None when no fleet clears |
| Stronghold.FirstClearIsFirst | module/os/tasks/stronghold.py:339-347 | a clearing fleet preceded only by failing ones is the one the rotation stops at |
| Stronghold.FirstClearNone | module/os/tasks/stronghold.py:339-352 | when no fleet clears, the rotation finds none |
| Stronghold.RotationExample | module/os/tasks/stronghold.py:339-352 | two fleets stuck three times each and a third that clears at once: the rotation succeeds on the third turn |
| Stronghold.RunStronghold | module/os/tasks/stronghold.py:323-352 | True exactly when some boss fleet clears, after visiting the entries up to the first such fleet; False only after every entry; one submarine order for each non-boss entry visited |
| Stronghold.StrongholdGone | module/os/tasks/stronghold.py:228-245 | HasStronghold and the Stronghold flag go off, then the decision's call follows; the task ends unless a sibling was called; the writes join an open batch or commit one by one |
| Stronghold.ClearStronghold | module/os/tasks/stronghold.py:172-245 | no stronghold: HasStronghold True then False, the disable and the decision's call, all committed as one batch; otherwise HasStronghold True is committed, and when no further stronghold shows the clean-up is committed write by write; the fleets' result does not change this |
| Stronghold.Passes | module/os/tasks/stronghold.py:257-264 | a run makes one pass per reading |
| Stronghold.PassesAt | module/os/tasks/stronghold.py:257-264 | pass k depends on reading k and on the sibling the run started with, nothing else |
| Stronghold.PassExitSpec | module/os/tasks/stronghold.py:257-264 | a pass can only end the task, never return or ask for a human; it goes on exactly when the clear, the in-loop coin check and the task switch all let it |
| Stronghold.RunFacts | module/os/tasks/stronghold.py:257-264 | every pass but the last went on; the last one ended the task by its clear, its coin check or a task switch; after an in-loop revert the log ends with the clear, the notice and the revert batch; only a task end or running out of readings leaves the loop |
| Stronghold.GoneOn | module/os/tasks/stronghold.py:257-264 | a pass that went on was ended neither by its clear, nor by the coin check, nor by a task switch |
| Stronghold.RevertPassLog | module/os/tasks/stronghold.py:258-263 | a pass whose clear goes on and whose coin check fires commits the clear, then the notice, then the revert batch |
| Stronghold.InLoopRevertExample | module/os/tasks/stronghold.py:258-263 | with CL1 on and neither setting to preserve nor to return, a clear that finds the next stronghold followed by 250000 coins commits HasStronghold, the notice and the revert batch, and ends the task |
| Stronghold.ClearStep | module/os/tasks/stronghold.py:172-245 | one `clear_stronghold()` call: it reports whether the clear ends the task and the log grows by exactly the clear's part of the pass specification; HasStronghold is on exactly when the stronghold and a next one were found; the sibling pick does not change; flags are only switched off |
| Stronghold.StrongholdPass | module/os/tasks/stronghold.py:257-264 | pass n of the loop does what pass n of the run specification says, exit and log |
| Stronghold.StrongholdRound | module/os/tasks/stronghold.py:258-264 | clear, then the in-loop coin check with CL1 on, then the task switch: the exit and log of the pass specification; a pass that goes on leaves the sibling pick unchanged; flags are only switched off |
| Stronghold.OsStronghold | module/os/tasks/stronghold.py:247-264 | only a task end or running out of readings leaves it; a pre-check revert ends the task before any clear with exactly the notice and the revert batch; otherwise the run follows the pass specification started from the sibling the flags give: every pass but the last was ended neither by its clear, nor by the coin check, nor by a task switch; a task end comes from one of these three in the last pass; an in-loop revert leaves the clear, the notice and the revert batch last in the log; at least one clear when a reading exists; flags are only ever switched off |
| Stronghold.StrongholdLoop | module/os/tasks/stronghold.py:257-264 | the loop's run follows the pass specification: every pass but the last went on, the last one is the reason for the exit, and the log grew by exactly what the passes commit |
| Abyssal.RevertTitleFormat | module/os/tasks/abyssal.py:119 | the Abyssal notice is pushed as "[Alas <name>] 深渊海域 - 黄币充足" |
| Abyssal.SiblingOrder | module/os/tasks/abyssal.py:142-163 | from Abyssal the scan tries Stronghold, then MeowfficerFarming, then Obscure |
| Abyssal.DelayAbyssal | module/os/tasks/abyssal.py:170-199 | with loggers left: a 150-minute server-update delay when the reset is 0 days away, the default server-update delay otherwise, and the task ends; without: the "no more work" rule for Abyssal |
| Abyssal.ClearAbyssal | module/os/tasks/abyssal.py:201-247 | no logger: the rule runs inside one batch, and the method returns only after a sibling call; a failed boss fight asks for a human and writes nothing; otherwise the delay is committed and the task ends |
| Abyssal.Passes | module/os/tasks/abyssal.py:249-252 | a run makes one pass per reading |
| Abyssal.PassesAt | module/os/tasks/abyssal.py:249-252 | pass k depends on reading k and on the sibling the run started with, nothing else |
| Abyssal.PassExitSpec | module/os/tasks/abyssal.py:249-252 | a pass never returns normally; it goes on exactly when no logger was found, a sibling was called and no task switch came; it asks for a human exactly after a failed boss fight |
| Abyssal.PassLogOwn | module/os/tasks/abyssal.py:201-247 | a pass commits only writes whose flag write is Abyssal's own disable, and pushes nothing |
| Abyssal.CommittedOwn | module/os/tasks/abyssal.py:249-252 | any number of passes commit only such writes |
| Abyssal.RunFacts | module/os/tasks/abyssal.py:249-252 | never a normal return; every pass but the last found no logger, handed off and saw no switch; a human takeover follows a failed boss fight and adds nothing to the log; a cleared boss ends the task with the delay as the last commit; no push and no write disabling another task |
| Abyssal.HandOffThenBoss | module/os/tasks/abyssal.py:201-252 | short of coins with Stronghold enabled: a reading without a logger hands off to Stronghold and goes on; the next one, with the boss cleared, commits the default delay and ends the task |
| Abyssal.AbyssalPass | module/os/tasks/abyssal.py:249-252 | pass n of the loop does what pass n of the run specification says, exit and log |
| Abyssal.AbyssalRound | module/os/tasks/abyssal.py:250-252 | clear, then the task switch: the exit and log of the pass specification; only Abyssal's own flag may go off |
| Abyssal.OsAbyssal | module/os/tasks/abyssal.py:249-252 | the run follows the pass specification started from the sibling the flags give; it never returns normally; a pass repeats only after a hand-off without a task switch; a human takeover follows a logger whose boss fight failed; a cleared boss ends the task with the reset delay as the last commit; only Abyssal's own flag may go off, and every new log entry is a commit whose only flag write is that disable |
| Obscure.RevertTitleFormat | module/os/tasks/obscure.py:118 | the Obscure notice is pushed as "[Alas <name>] 隐秘海域 - 黄币充足" |
| Obscure.SiblingOrder | module/os/tasks/obscure.py:139-162 | from Obscure the scan tries Abyssal, then Stronghold, then MeowfficerFarming; the wrap-around range is empty |
| Obscure.ClearObscure | module/os/tasks/obscure.py:169-213 | no item: the disable and the decision's call are committed as one batch, and the task ends unless a sibling was called; with an item nothing is written |
| Obscure.Passes | module/os/tasks/obscure.py:225-240 | a run makes one pass per reading |
| Obscure.PassesAt | module/os/tasks/obscure.py:225-240 | pass k depends on reading k and on the sibling the run started with, nothing else |
| Obscure.PassExitSpec | module/os/tasks/obscure.py:225-240 | a pass never asks for a human; it goes on exactly when ForceRun is on and neither the clear, the coin check nor a switch ended it; it returns exactly when ForceRun is off and neither the clear nor the coin check ended the task |
| Obscure.RunFacts | module/os/tasks/obscure.py:225-240 | no human takeover; without ForceRun one pass, which disables Obscure and returns unless its clear or coin check ended the task; with ForceRun no return, every pass but the last ended in none of the three ways and the last in one of them; after an in-loop revert the log ends with the clear, the notice and the revert batch |
| Obscure.GoneOn | module/os/tasks/obscure.py:225-240 | a pass that went on had ForceRun on and was ended neither by its clear, nor by the coin check, nor by a task switch |
| Obscure.RevertPassLog | module/os/tasks/obscure.py:226-231 | a pass whose clear goes on and whose coin check fires commits the clear, then the notice, then the revert batch |
| Obscure.ReturnPassLog | module/os/tasks/obscure.py:226-237 | a pass that returns commits the clear, then the disable of Obscure |
| Obscure.ForceRunKeepsGoing | module/os/tasks/obscure.py:233-240 | with ForceRun on and CL1 off, two readings with an item and no switch give two clears, no writes and no exit of the task's own |
| Obscure.OnePassWithoutForceRun | module/os/tasks/obscure.py:233-237 | with ForceRun off and CL1 off, the first reading with an item disables Obscure and returns after one clear |
| Obscure.ObscurePass | module/os/tasks/obscure.py:225-240 | pass n of the loop does what pass n of the run specification says, exit and log |
| Obscure.ObscureRound | module/os/tasks/obscure.py:226-240 | clear, the in-loop coin check with CL1 on, then the ForceRun-off disable and return, or the task switch: the exit and log of the pass specification; a return leaves exactly Obscure's flag switched off |
| Obscure.OsObscure | module/os/tasks/obscure.py:215-240 | a pre-check revert ends the task before any clear with exactly the notice and the revert batch; otherwise the run follows the pass specification; never a human takeover; without ForceRun at most one clear, and a first reading that neither the clear nor the coin check ends gives a return after disabling Obscure, with exactly that disable after the clear in the log; with ForceRun never a return; every pass but the last was ended neither by its clear, nor by the coin check, nor by a task switch; a task end comes from one of these in the last pass; an in-loop revert leaves the clear, the notice and the revert batch last in the log; flags are only switched off |
| Obscure.ObscureLoop | module/os/tasks/obscure.py:225-240 | the loop's run follows the pass specification: every pass but the last went on, the last one is the reason for the exit, and the log grew by exactly what the passes commit; a return leaves Obscure disabled; flags are only switched off |
| Runs.Step | module/os/tasks/stronghold.py:257-264 | after passes that all went on, one more pass either goes on with its log appended, or completes the run with its exit |
| Runs.LastPass | module/os/tasks/stronghold.py:257-264 | a run that left with an exit ends its log with the last pass's log |
| Runs.RunsOut | module/os/tasks/stronghold.py:257-264 | running out of readings after passes that all went on completes the run with every pass counted |
| Runs.QuietPasses | module/os/tasks/stronghold.py:257-264 | three passes that go on and commit nothing leave the log as it was, and are a run of three passes, not two |
| PyJson.Trunc | module/statistics/opsi_month.py:51 | `int()` of a float truncates toward zero: the result is within one of the value, on the zero side |
| PyJson.ParseTrimmedDigits | module/statistics/opsi_month.py:51 | a decimal numeral, optionally signed, parses to its value |
| PyJson.PyIntOfStr | module/statistics/opsi_month.py:51 | `int(str(n))` is `n` for every integer |
| PyJson.PyIntSpacesAndPlus | module/statistics/opsi_month.py:51 | surrounding whitespace and a leading "+" are accepted |
| PyJson.ParseIntStrUnderscore | module/statistics/opsi_month.py:51 | "1_000" reads as 1000 |
| PyJson.ParseIntStrRejects | module/statistics/opsi_month.py:50-53 | "1__0", "_1", "1_" and "1.5" are rejected, which the coercion turns into 0 |
| OpsiMonth.MonthKeyShape | module/statistics/opsi_month.py:46 | for a four-digit year and a two-digit month the key is seven characters, "YYYY-MM", and both numbers read back from it |
| OpsiMonth.MonthKeyInjective | module/statistics/opsi_month.py:80 | different months in range never share a key |
| OpsiMonth.MonthKeyExample | module/statistics/opsi_month.py:149 | 2025 and 3 give "2025-03" |
| OpsiMonth.LoadRaw | module/statistics/opsi_month.py:25-38 | a missing or malformed file, or a document that is not a dict, reads as the empty dict; a dict document is returned as it is |
| OpsiMonth.Summary | module/statistics/opsi_month.py:40-62 | each count is the stored value's `int()`, and 0 when the key is missing or the value does not convert; the month and the raw dict are returned with them |
| OpsiMonth.EntriesSumAppend | module/statistics/opsi_month.py:93-100 | the entry sum is additive over concatenation |
| OpsiMonth.EntriesSumSkipsUnreadable | module/statistics/opsi_month.py:94-100 | an entry whose `int()` raises adds nothing, wherever it stands |
| OpsiMonth.EntriesSumExample | module/statistics/opsi_month.py:95-98 | an integer, a dict with a string amount, a null and a dict without amount sum to 5 + 7 + 0 + 0 |
| OpsiMonth.SumEntries | module/statistics/opsi_month.py:93-100 | the accumulator loop computes the entry sum |
| OpsiMonth.GetDetailedSummary | module/statistics/opsi_month.py:64-118 | fails exactly when one of the three base reads does not convert, naming the first such key; otherwise rounds = count // 2, cost = 120 × rounds, and the net gain is the explicit value, or the entry sum when that value is 0 |
| OpsiMonth.JsonStageExamples | module/statistics/opsi_month.py:154-167 | an unconvertible "-akashi-ap" value ends the stage with 0; a list holding the key does too; a missing, unreadable or null file falls through |
| OpsiMonth.ZeroApKeyDiverges | module/statistics/opsi_month.py:162-167 | a present "-akashi-ap" of 0 is returned as 0 even with entries, where the detailed summary sums the entries |
| OpsiMonth.StagesAgreeOnEntries | module/statistics/opsi_month.py:169-178 | without the key and with a non-empty entry list, the stage returns the same entry sum as the detailed summary |
| OpsiMonth.SearchAp | module/statistics/opsi_month.py:211 | the leftmost position where `ActionPoint(\d+)(?:_(\d+)x)?` matches, with its base and multiplier (1 when the group is absent); None when it matches nowhere |
| OpsiMonth.SearchApNeedsTag | module/statistics/opsi_month.py:208-211 | a match always lies on an occurrence of "ActionPoint" |
| OpsiMonth.SearchApExamples | module/statistics/opsi_month.py:211-216 | "ActionPoint60_3x" gives base 60, multiplier 3; "ActionPoint100" gives 100 and the default 1 |
| OpsiMonth.LineCreditSpec | module/statistics/opsi_month.py:207-216 | a line is credited only when it holds "ActionPoint" and "Click" and "Shop buy finished" is in it or one of the 24 lines after it; it is then credited base × multiplier of its first match |
| OpsiMonth.ScanLines | module/statistics/opsi_month.py:206-218 | the per-line loop adds up exactly the lines' credits |
| OpsiMonth.ScanLogs | module/statistics/opsi_month.py:182-218 | the directory loop adds up the credits of regular ".log"/".txt" files (suffix in any case) from the month, or with an unreadable mtime |
| OpsiMonth.ReadJsonStage | module/statistics/opsi_month.py:154-180 | for a dict: a present "-akashi-ap" is returned, converted or 0; otherwise a non-empty entry list's sum; for a list or string holding the key, 0; everything else falls through |
| OpsiMonth.ComputeMonthly | module/statistics/opsi_month.py:137-223 | the statistics-file stage wins whenever it returns; otherwise a positive log total is the answer; otherwise the screenshot stage is reached |
| OpsiMonth.InstanceKey | module/statistics/opsi_month.py:127 | None and "" mean "default"; any other name is its own key |
| OpsiMonth.MonthStats.constructor | module/statistics/opsi_month.py:14-23 | the object's instance name is the name given, or "default" |
| OpsiMonth.StatsRegistry.GetOpsiStats | module/statistics/opsi_month.py:125-130 | a key seen before returns its cached object and changes nothing; a new key gets a fresh object, added under that key and no other |
| OpsiMonth.SameKeySameInstance | module/statistics/opsi_month.py:125-130 | two calls whose names share a key (None, "" and "default" do) return the same object |

## Left out

- Image matching, screen reading, map and UI navigation and combat are not
  modelled. Their results are inputs: coin readings, storage searches,
  stronghold searches, attack outcomes and the boss result.
- `cl1_ap_preserve()` and the ActionPointLimit it can raise are not modelled.
  They belong to the CL1 action-point logic.
- `config.override` and `config.temporary` are left out; they only change
  display and story settings.
- Logging is left out.
- Push delivery through `module.notify.handle_notify` is not modelled; the
  model covers whether a push is attempted and its title. The notice's
  content string is not modelled.
- The configuration's own implementation is not part of this model
  (`cross_set`, `task_call`, `task_delay`, `task_stop`, `multi_set`,
  `is_task_enabled`). Its behaviour is taken as follows:
  - `is_task_enabled` reads the Scheduler.Enable flag;
  - `task_stop` and `check_task_switch` raise TaskEnd;
  - a batch commits when its outermost block is left.
  
  Anything `task_call` does to the called task's own flags is not modelled.
- The `current_index = -1` fallback of `_try_other_coin_tasks` is not
  modelled: the current task is always in the list.
- An endless driver loop is modelled for as many passes as there are
  readings. A run that never ends is not modelled.
- Stronghold.RunStrongholdOneFleet: requires three attempt readings, one
  per possible attack, instead of modelling the attacks.
- OpsiMonth file I/O is not modelled: paths, existence tests, JSON
  decoding, text decoding with encoding fallbacks, `splitlines` and the
  directory listing. Their outcomes are inputs: the decoded document, each
  file's lines, its suffix and its mtime.
- The local-time conversion of mtimes is left out.
- The screenshot CSV stage of `compute_monthly_cl1_akashi_ap` is left out;
  the model only records that it is reached.
- The `path` argument of `OpsiMonthStats` is left out.
- The float metrics `akashi_probability`, `average_stamina` and `round` are
  left out; only the integer fields are modelled.
- PyJson.PyInt: does not model `int()` on NaN or infinite floats, which
  raise. It also does not model Unicode digits or whitespace beyond ASCII,
  which Python's `int()` accepts.
- OpsiMonth.SearchAp: only ASCII digits are matched; Python's `\d` also
  matches other Unicode decimal digits.
- HasStronghold after a driver run is only recorded in the log (the
  HasStronghold writes of each pass); the driver contracts do not restate
  its final value.
- Obscure.ObscureLoop: a return is stated to leave Obscure disabled and no
  flag switched on; that exactly Obscure's flag changed is stated per pass
  by `Obscure.ObscureRound`.
- Obscure.OsObscure: the same holds for a return from the driver as a
  whole.

## Notes on the code

- The docstring of `clear_stronghold` says it requests a human takeover when
  the fleets are exhausted. The code ignores the result of
  `run_stronghold()` and carries on to the next-stronghold check. The model
  follows the code: `Stronghold.ClearStronghold` behaves the same whether
  or not a fleet cleared.
- In `compute_monthly_cl1_akashi_ap` a stored "-akashi-ap" of 0 wins over
  the entry list. `get_detailed_summary` sums the entries in that case.
  `OpsiMonth.ZeroApKeyDiverges` states the difference.
- `os_obscure` and `os_stronghold` skip the pre-check when the threshold is
  disabled. The check itself returns False in that case, so the skip has
  the same effect.
