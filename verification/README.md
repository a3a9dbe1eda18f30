# A verified model of the burn-in operator

The operator runs acceptance tests on cluster hardware. A run stamps and cordons the nodes it
loads, burns them one wave at a time under a node cap, decides a verdict from repeats, retries
and segmented soaks, and gives every node back as it found it. It re-derives its state on every
pass and may crash between any two writes. This project models that behaviour and proves what
holds over every run, every interleaving and every crash.

`dafny verify dfyconfig.toml` checks the whole project.

## What is modelled

| Files | Component |
|---|---|
| `Stamps`, `Cordon`, `CordonProtocol`, `CordonFinalizer`, `CordonHeat` | Cordon ownership and the heat declaration: stamps and their parsers, one run's node writes, and the protocol of many runs, a reaper, version-checked writes and crashes |
| `Admission`, `AdmissionProtocol` | The order of runs, the conflict scan, and mutual exclusion over interleavings |
| `Verdict`, `Soak`, `Attempts`, `AttemptHistory`, `AttemptVerdict`, `Checkpoints` | One test on one unit: gates, windows and their aggregate, attempts, retries, truncation, early abort, checkpoints |
| `Planning`, `Execution`, `Sweeper`, `ExecutionFacts`, `Visits`, `SweepFacts`, `SweepOutcome`, `Interlock` | One sweep of a pinned plan at Node, Pair and Group scope, what each visit reads, starts and condemns, and the node cap over it |
| `RunProtocol`, `RunInvariant`, `RunLaws`, `RunEnd`, `RunLog`, `Harvests`, `RunCap`, `RunExamples` | A run over its whole life: passes, drains, deadline, termination, deletion, crashes, other owners' stamps, and whose report each outcome came from |
| `Exporter` | The Prometheus exporter's index of published series |
| `Schedule` | The cron cursor |

Code that updates things in place is a class or a method with loops (`Cordon.Holder`,
`Attempts.TestResult`, `Sweeper.Reconciler`, `Exposition.Exporter`, `Schedule.Scheduler`), each
proved equal to a function on values; the laws are lemmas about those functions and about traces
of them.

Assumptions, beyond what each lemma requires:

- An API write is one atomic compare-and-swap on the object's version. What a reconcile holds in
  memory is lost in a crash. A run has one reconcile at a time and reads its own last status write
  (`internal/controller/burninrun_controller.go:2587-2593`).
- UIDs are never reused, and Kubernetes names are non-empty and free of `/` (`Nameable`).
- A pod's name is an injective function of run, test, node, attempt and role
  (`internal/controller/pods.go:109-136`), so a pod is its (unit, rank, attempt).
- A sweep reads the pods at one instant. Pods that change during it change before or after it.
- Time is an integer; metric values are reals or text that is not a finite number.
- How a metric combines across windows is an arbitrary function of its name.
- In `RunProtocol` a stamp the run put on a node stays until the run gives it back or the node goes;
  that is `CordonProtocol.StampStays`. Other owners' stamps come and go on nodes this run has not
  stamped, as they do under an orphan not yet reaped, a race or a forced run.
- An outside edit of an unstamped node's schedulability, or the creation of a node, agrees with each
  record of that node that can still be acted on: by a run neither finished nor being deleted, or by
  a reconcile in flight that may yet claim the node (`CordonProtocol.Agreed`). The condition is
  exact: in every reachable state such an edit is kept by every history if and only if it holds
  (`CordonProtocol.EditKeptExactly`). Nothing is assumed of the record of a run that is finished or
  being deleted, nor of edits of a stamped node.

## Where the code and its documentation differ

- An empty owner annotation is no owner to `cordonNode` and a stamp to `preBurnInSchedulability`.
  Claiming such a node keeps its prior state if and only if what the run writes down as prior agrees
  with the node's prior annotation (`Cordon.EmptyStampKeepsPriorExactly`); for every node the exact
  condition is `Cordon.PriorKeptExactly`.
- A node that carries another owner's stamp is loaded without this run's: cordoning it succeeds and
  leaves it as it is. A pair's client can then start on a node that carries no stamp at all, if the
  other owner lets go in between (`RunExamples.ForeignStampLeavesTheNodeBare`). The node carries this
  run's stamp exactly when no other owner's was on it as the unit started
  (`RunEnd.JoinersFollowTheRoot`).
- Two unforced rivals can both be admitted when the one created later sorts first, which needs
  only two creations within one second and a smaller UID (`AdmissionProtocol.SameSecondRace`).
  Exclusion holds given that later runs sort after earlier scans, and every creation that breaks
  this order can be followed by both rivals holding (`AdmissionProtocol.DisorderBreaksExclusion`).
- The documentation of `provableViolations` calls its four cases the whole list of breaches no
  later segment can retract. An Equal gate on a minimum already below its value or on a maximum
  already above it, and an unknown comparison, cannot be retracted either
  (`Soak.IrrevocableExactly`). The code stops on fewer violations than it could, never on more.
- A sweep can count more nodes than the larger of the cap and where it began: the cap was lowered
  while only the first pod of a pair or group existed. `Interlock.OneSweepUnderTheCap` gives the
  exact condition, `RunExamples.LoweredCapOverhangs` a case.
- Over a whole run the cap can be exceeded when a pod is first seen already ended, because its
  result is opened without its node being counted in that sweep (`RunExamples.CapNeedsTheRecord`);
  when a pod cannot be built, for the same reason (`RunExamples.CapNeedsPodsThatBuild`); and when
  the cap is lowered, because nothing is stopped for it (`RunExamples.LoweredCapKeepsItsLoad`).
- A sweep may give back a node of a unit while one of the unit's pods is live. In every reachable
  state of a run under way, no sweep gives back any of a set of nodes if and only if those of them
  that carry the run's stamp are committed: under a live pod, held by an open result, or a node of
  an unsettled unit with a live pod (`RunEnd.WithheldExactly`). So a unit in flight keeps its nodes
  (`RunEnd.UnitsInFlightKeepTheirNodes`), while a settled pair whose server is still alive commits
  only the server's node and may lose the client's (`RunExamples.SettledPairLetsGo`).
- A pass that writes over a window whose ticks have all expired counts them, and the next pass
  counts them again (`Schedule.DeadlineCountsTwice`). Within the scan and counter limits that is
  exactly when the account is lost (`Schedule.AccountKeptExactly`); a deadline alone does no harm.
- The Forbid policy is enforced against a cached list. It keeps one run at a time if that list shows
  the run just created, and not otherwise (`Schedule.StaleListStartsAnother`).

## Model

| member | source | states |
|---|---|---|
| `Stamps.ParseOwnerExact` | internal/controller/cordon.go:42-72 | the owner parser accepts exactly the printed form of a nameable owner, and returns that owner |
| `Stamps.OwnerIdInjective` | internal/controller/cordon.go:42-44 | two nameable owners never print the same stamp |
| `Stamps.ParseInstantExact` | internal/controller/cordon.go:143-157 | the expiry parser inverts the UTC form of section 5.6 of RFC 3339, both ways |
| `Stamps.ParseHeatExact` | internal/controller/cordon.go:120-157 | a heat marker parses exactly when it was printed for a nameable owner and a writable expiry |
| `Stamps.InstantLayout` | internal/controller/cordon.go:113-122 | the expiry is printed in twenty characters, each field in decimal, in the order of section 5.6 of RFC 3339 |
| `Stamps.BeforeIsClockOrder` | internal/controller/cordon.go:178-203 | an expiry is before another exactly when its fields, most significant first, make a smaller number |
| `Cordon.HeatIsOwnedAndMovesForward` | internal/controller/cordon.go:178-234 | a heat marker belongs to the run that stamped it, never moves back, and is dropped only by its owner |
| `Cordon.CordonKeepsPrior` | internal/controller/cordon.go:318-533 | after any prefix of a cordon's writes the node's pre-burn-in schedulability is still what it was |
| `Cordon.PriorKeptExactly` | internal/controller/cordon.go:318-533 | for every node, run, record and heat, cordoning keeps the prior state if and only if the node is already owned or what would be recorded as prior is what the node reads as now |
| `Cordon.EmptyStampKeepsPriorExactly` | internal/controller/cordon.go:318-346 | a node with an empty owner annotation keeps its prior state if and only if the record, or its schedulability, agrees with its prior annotation |
| `Cordon.EmptyStampLosesPrior` | internal/controller/cordon.go:318-323 | a cordoned node with an empty stamp, no prior annotation and no record loses its prior state |
| `Cordon.ReleaseRestores` | internal/controller/cordon.go:341-360 | a release leaves the node as it was found, and the reaper's write does what the run's would |
| `Cordon.ReleaseGivesBack` | internal/controller/cordonreaper.go:110-144 | a release and a reap alike leave the node unstamped, as schedulable as it was found, and without the run's heat declaration, and leave any other declaration alone |
| `Cordon.ClaimSettlesHeat` | internal/controller/cordon.go:178-203 | from its first write on a claim leaves the node declared for this run until at least the expiry asked for, or not declared for it, and another's declaration as it was |
| `Cordon.Holder.CordonNode` | internal/controller/cordon.go:398-533 | the node ends at a cordon state, at the last one unless a write was refused, and is then declared for the run until the expiry asked for or withdrawn; no other node changes |
| `Cordon.Holder.ReleaseNode` | internal/controller/cordon.go:588-642 | a node this run owns is restored and its heat declaration taken off; anybody else's is left alone and dropped from the list |
| `Cordon.Holder.ReleaseHeldNodes` | internal/controller/cordon.go:569-582 | exactly the listed nodes outside the wave are given back |
| `Cordon.Holder.ReleaseCordons` | internal/controller/cordon.go:682-729 | a full release leaves no node with this run's stamp or, where it was stamped, its heat declaration, and changes no node stamped by anyone else, whatever the list said |
| `Cordon.Api.Update` | internal/controller/cordon.go:588-642 | a write lands whole or not at all |
| `CordonProtocol.StepKeeps` | internal/controller/cordon.go:262-729 | every action of every run, the reaper and the environment keeps the ownership invariant |
| `CordonProtocol.CordonIsTemporary` | internal/controller/cordon.go:262-360 | in every reachable state an unstamped node has its pre-burn-in schedulability and a stamped node's record equals it |
| `CordonProtocol.BurnInLeavesNoTrace` | internal/controller/burninrun_controller.go:308-347 | a node found unstamped before and after any history is as schedulable as it was, unless somebody outside changed it |
| `CordonProtocol.EditKeptExactly` | internal/controller/cordon.go:341-360 | in every reachable state an outside edit of an unstamped node is kept by every later history if and only if it agrees with each record of the node that an unfinished run or a reconcile in flight can still act on |
| `CordonProtocol.StampStays` | internal/controller/cordon.go:588-642 | in every reachable state a node stamped for an owner changes only by that owner's own write, by a reaper with the owner gone, or by deletion; an outside edit moves its schedulability alone |
| `CordonProtocol.ReaperSparesTheLiving` | internal/controller/cordonreaper.go:65-144 | no reaper write, even from a stale read, clears the stamp of a run that still exists under the stamped UID |
| `CordonProtocol.OrphansAreRecovered` | internal/controller/cordonreaper.go:65-166 | an orphaned stamp can always be cleared by one reaper pass, which restores the node |
| `CordonFinalizer.StepOwing` | internal/controller/burninrun_controller.go:255-347 | without forced finalizer removal every action keeps each stamp owed by a run that can still be held to it |
| `CordonFinalizer.FinalizerOwesEveryStamp` | internal/controller/burninrun_controller.go:2180-2327 | without forced deletion, a run that pinned its plan and has lost its finalizer owns no stamp in any reachable state |
| `CordonHeat.HeatStandsBesideItsStamp` | internal/controller/cordon.go:205-234 | over every history a heat declaration of a run of that history is on a node only beside that run's own stamp |
| `CordonHeat.GivingBackTakesTheHeat` | internal/controller/cordonreaper.go:110-144 | the write that takes a stamp off a node, the run's or the reaper's, takes its owner's heat declaration with it |
| `Admission.OrderIsTotal` | internal/controller/admission.go:63-72 | of two different runs exactly one precedes the other |
| `Admission.OrderIsTransitive` | internal/controller/admission.go:63-72 | the admission order is transitive |
| `Admission.LessIsLexicographic` | internal/controller/admission.go:63-72 | UIDs are ordered by the first byte in which they differ, a prefix first |
| `Admission.TheElderWins` | internal/controller/admission.go:63-72 | who is refused to whom, in every case: a started run beats one that has not started, then the one created earlier wins, then the smaller UID |
| `Admission.EldestIsAdmitted` | internal/controller/admission.go:128-165 | nobody is in the way of an unstarted run created before every overlapping run, none of which has started |
| `Admission.StartedYieldsToStarted` | internal/controller/admission.go:63-72 | a started run is refused only to one that has started too and is no younger |
| `Admission.OverlappingTargets` | internal/controller/admission.go:181-207 | exactly the wanted nodes the other run targets |
| `Admission.FindConflict` | internal/controller/admission.go:128-165 | the least contender in the order with its overlap, or none when nobody contends |
| `Admission.ConflictIsListOrderFree` | internal/controller/admission.go:128-165 | the reported conflict does not depend on the order of the list |
| `Admission.LeastIsAdmitted` | internal/controller/admission.go:63-165 | the least contender is never refused |
| `Admission.SomeoneIsAdmitted` | internal/controller/admission.go:215-256 | of any runs some of which can still hold their nodes, one that can is admitted |
| `AdmissionProtocol.MutualExclusion` | internal/controller/admission.go:95-256 | two unforced rivals are never both past the gate and holding, over all interleavings and crashes, given orderly creation |
| `AdmissionProtocol.ExclusionByTheClock` | internal/controller/admission.go:95-256 | where creation timestamps strictly increase, two unforced runs with a target in common are never both told yes, or pinned, while both still hold |
| `AdmissionProtocol.DisorderBreaksExclusion` | internal/controller/burninrun_controller.go:281-305 | from every state the invariant admits, any out-of-order creation can be followed, once third contenders have ended, by both rivals being past the gate |
| `AdmissionProtocol.SameSecondRace` | internal/controller/admission.go:63-72 | a concrete history in which two rivals created in one second are both admitted |
| `Verdict.FailsClosed` | pkg/verdict/verdict.go:300-419 | a report passes exactly when every threshold has a finite reading on the right side of a finite bar, or is waived and was declared unmeasurable |
| `Verdict.EvaluateExactly` | pkg/verdict/verdict.go:300-419 | which thresholds are reported violated, satisfied, and set aside, the last only up to the first violation |
| `Verdict.EvidenceIsMeasured` | pkg/verdict/verdict.go:324-419 | a violation counts as evidence about the hardware exactly when a finite measurement is on the wrong side |
| `Soak.WindowsCoverDuration` | internal/controller/soak.go:58-75 | the required windows cover the duration, six hundred seconds where none is given, and one fewer would not; a soak without a window length requires none |
| `Soak.FoldMetrics` | internal/controller/soak.go:118-135 | each metric is combined by its own rule, in whatever order the maps are walked |
| `Soak.UnmeasurableAfter` | internal/controller/soak.go:200-220 | the names declared so far and not measured |
| `Soak.AggregateLaw` | internal/controller/soak.go:118-220 | at every point the aggregate is the sum, minimum, maximum or last of the clean windows' readings, the first non-finite one sticking, and the unmeasurable names are those declared and never measured |
| `Soak.ProvableViolations` | internal/controller/soak.go:265-306 | exactly the measured violations of the four monotone cases |
| `Soak.AbortIsSound` | internal/controller/soak.go:265-306 | after any clean continuation a provable violation still violates the same threshold, given non-negative counters |
| `Soak.IrrevocableExactly` | internal/controller/soak.go:255-306 | a measured violation can never be retracted if and only if it is one of the four cases or one of the three the code leaves out |
| `Soak.NegativeCountRetracts` | internal/controller/soak.go:286-306 | a negative reading retracts a violated sum, so the hypothesis is needed |
| `Attempts.GateOutcome` | internal/controller/burninrun_controller.go:1642-1697 | passed exactly when no threshold is violated, failed otherwise |
| `AttemptVerdict.OutcomeExactly` | internal/controller/burninrun_controller.go:1522-1625 | which exits and gates make an execution passed, failed, skipped or errored: silence against a bar is an error, and a window is not gated by itself |
| `AttemptVerdict.CompletionPublishes` | internal/controller/burninrun_controller.go:1234-1374 | what a completion leaves to be read: the attempt carries number, outcome and report; an open result shows the aggregate or the newest report, a settled one what it was settled on |
| `AttemptVerdict.CompletionEvidence` | internal/controller/burninrun_controller.go:1401-1448 | a settled result carries the evidence of exactly the gates that were applied to it |
| `AttemptVerdict.SampleShows` | internal/controller/burninrun_controller.go:1820-1900 | a checkpoint shows the sample, in a soak each metric as if the window closed now, and moves nothing else but the open attempt |
| `AttemptVerdict.StopSays` | internal/controller/burninrun_controller.go:2022-2052 | stopping gives an open result and its open attempt the phase and leaves a settled one |
| `AttemptVerdict.AbortChangesNoVerdict` | internal/controller/burninrun_controller.go:1401-1448 | a soak stopped early would have failed its gates at its last window, however it went on |
| `Attempts.RepeatsRequired` | internal/controller/plan.go:717-722 | the count asked for, and one execution when none or less than one is asked for |
| `Attempts.Thin` | internal/controller/soak.go:333-358 | all but the sixteen latest passing attempts after the first are dropped, and counted |
| `Attempts.TestResult.BeginAttempt` | internal/controller/burninrun_controller.go:1156-1196 | idempotent opening; the only way an attempt is added |
| `Attempts.TestResult.TruncateAttempts` | internal/controller/soak.go:328-360 | the kept history and the counter after truncation |
| `Attempts.TestResult.FoldSegment` | internal/controller/burninrun_controller.go:1382-1392 | a clean window enters the aggregate once |
| `Attempts.TestResult.CompleteAttempt` | internal/controller/burninrun_controller.go:1234-1374 | the whole result after an outcome, as the function the settling law is about |
| `Attempts.TestResult.Checkpoint` | internal/controller/burninrun_controller.go:1820-1900 | writes only when due, open and readable, and then only evidence |
| `AttemptHistory.HistoryLaw` | internal/controller/burninrun_controller.go:1156-1196 | in every execution numbers run on from one, kept and forgotten attempts make up the last number, nothing follows a failed or skipped attempt, and each attempt has exactly the trigger its predecessor and the soak give it |
| `AttemptHistory.HistoryBound` | internal/controller/soak.go:328-360 | a soak's kept history never exceeds the passing allowance plus two plus the retry limit |
| `AttemptHistory.TruncationConserves` | internal/controller/soak.go:328-360 | a completion forgets only passing attempts, oldest first, down to sixteen after the first; the first, the last and every other one stay in order |
| `AttemptHistory.NumbersMoveOn` | internal/controller/burninrun_controller.go:1775-1784 | the next attempt number never goes back, and a completion moves it by one |
| `AttemptVerdict.SettlesAtTheFirstDecision` | internal/controller/burninrun_controller.go:1234-1448 | a test settles exactly at the first fail or skip, the error after the last retry, the last required pass, the last window or a provable violation, with the phase that decides, and is open exactly until then |
| `AttemptVerdict.PassedRests` | internal/controller/burninrun_controller.go:1294-1374 | a pass saw no fail, no skip and no more errors than allowed; every required execution cleared every gate, or the windows cover the duration and clear every gate together |
| `AttemptVerdict.ErrorCounts` | internal/controller/burninrun_controller.go:1330-1371 | an errored execution moves no repeat, no window and no aggregate; a final error keeps the soak's evidence |
| `AttemptVerdict.StepEarned` | internal/controller/burninrun_controller.go:1156-1374 | every step keeps the counters true and each recorded pass backed by them |
| `Checkpoints.CheckpointsDoNotInterfere` | internal/controller/burninrun_controller.go:1820-1900 | two executions with the same completions agree on phase, counters, aggregate, evidence and final metrics, however they were opened and sampled |
| `Checkpoints.ExecutionLaw` | internal/controller/burninrun_controller.go:1234-1448 | the settling law and the aggregate law for executions with any openings and checkpoints in between |
| `Checkpoints.PassedHasGrounds` | internal/controller/burninrun_controller.go:1294-1448 | in every execution, with the retry limit changing as it may, a pass rests on recorded outcomes that are passes or errors only and clear every gate, each by itself or as the required windows together |
| `Planning.FirstDuplicate` | internal/controller/plan.go:298-307 | none exactly when all targets differ |
| `Planning.ValidateTopology` | internal/controller/plan.go:200-336 | accepts exactly two distinct endpoints for a pair, and two or more distinct ranks with a runner that speaks the group contract for a group, within the cap |
| `Planning.BuildPlan` | internal/controller/plan.go:136-191 | a plan exists exactly when names are unique and every test's topology is sound |
| `Planning.EveryUnitFits` | internal/controller/plan.go:200-336 | no unit of a plan pinned at a cap is too large for that cap |
| `Planning.RanksRunApart` | internal/controller/plan.go:200-336 | no two ranks of an accepted pair or group run on one node |
| `Execution.LinkPassNeedsTheClient` | internal/controller/pair.go:495-583 | a link passes exactly when the client passed, the server did not say otherwise, and no needed log is lost |
| `Execution.GraverEndDecides` | internal/controller/pair.go:549-583 | of two reports the graver decides, and a server alone never passes a link |
| `Execution.ClientReadingsWin` | internal/controller/pair.go:495-530 | the client's readings win, and a name either end measured is not unmeasurable |
| `Sweeper.Reconciler.constructor` | internal/controller/burninrun_controller.go:2345-2388 | a sweep starts counting the nodes with live pods and the nodes of open results |
| `Sweeper.Reconciler.AdvanceNode` | internal/controller/burninrun_controller.go:906-1017 | one step of a node execution equals its function |
| `Sweeper.Reconciler.CordonWave` | internal/controller/cordon.go:542-557 | nodes are stamped in order up to the first that cannot be, and a node another owner stamped is left as it is |
| `Sweeper.Reconciler.StartUnit` | internal/controller/pair.go:214-286 | a unit is admitted, stamped and counted whole before its first pod |
| `Sweeper.Reconciler.CreateRest` | internal/controller/group.go:364-386 | the missing ranks are created together, up to the first refusal |
| `Sweeper.Reconciler.GateUnit` | internal/controller/group.go:308-386 | nobody joins before the first rank is Ready |
| `Sweeper.Reconciler.HarvestPair` | internal/controller/pair.go:386-469 | the client decides; a live server is condemned, not deleted |
| `Sweeper.Reconciler.HarvestGroup` | internal/controller/group.go:392-460 | every rank reports, or the window closes on all of them |
| `Sweeper.Reconciler.AdvanceGang` | internal/controller/group.go:154-204 | a unit in flight holds every one of its nodes |
| `Sweeper.Reconciler.Execute` | internal/controller/burninrun_controller.go:676-813 | the sweep over tests and units equals its function |
| `Sweeper.Reconciler.SettleRemaining` | internal/controller/burninrun_controller.go:2022-2052 | every owed verdict is stopped and none already given changes |
| `ExecutionFacts.AdvanceVisited` | internal/controller/burninrun_controller.go:906-1017 | a visit moves only its unit's result and forward, creates only current-attempt pods for launch, grows the counted nodes only within cap or for live pods, and condemns only what it has recorded |
| `Visits.VisitRecords` | internal/controller/pair.go:296-469 | what a visit records, from the pods and their reports: an attempt ends when the pods it waits for have ended, on exactly what their reports amount to, the client's before the server's; when one is overdue or cannot be built, as an error; and otherwise it is opened and sampled |
| `Visits.VisitDoes` | internal/controller/group.go:154-460 | an attempt that ends is on record and every pod of it still alive is condemned; one that goes on gets exactly the pods it needs now, or waits if they do not fit or may not start, or the sweep is abandoned |
| `SweepOutcome.Executed` | internal/controller/burninrun_controller.go:676-813 | a sweep works in plan order on one test, keeps every settled result, ends counting every live and held node, and counts every node it newly stamped unless it was abandoned |
| `Interlock.OneSweepUnderTheCap` | internal/controller/burninrun_controller.go:679-714 | a sweep never occupies more than the larger of the cap and what was committed at its start; against the nodes first counted, exactly when no pair or group overhangs the cap |
| `RunInvariant.StepKeeps` | internal/controller/burninrun_controller.go:553-600 | every pass, drain, deadline, deletion, crash and cluster move keeps the run invariant |
| `RunInvariant.UnitCovered` | internal/controller/burninrun_controller.go:803-812 | by its end a sweep counts every node of an unsettled unit with a live pod |
| `RunLaws.PassedIsEarned` | internal/controller/burninrun_controller.go:2062-2071 | a run that ends Passed holds for every verdict of every required test a skip or an earned pass |
| `RunLog.PassedRestsOnHarvests` | internal/controller/burninrun_controller.go:2062-2071 | every open result is what the outcomes harvested and durably recorded for it make of it, and a Passed run has for every required verdict a skip or a pass whose recorded outcomes cleared every gate |
| `Harvests.NothingLeftUnread` | internal/controller/burninrun_controller.go:676-813 | a sweep that gets to its end has read every outcome there was to read of the test it works on, recorded it, and condemned what is left of the attempt |
| `Harvests.OutcomesAreRead` | internal/controller/pair.go:386-469 | in every history each durable outcome but an error was read by a pass off pods of one attempt that had ended, and is what their reports amounted to |
| `Harvests.PassesWereSeen` | internal/controller/pair.go:549-583 | every passing report on record rests on the client's ended pod and its pass, with the server not contradicting, or on the node's own pod, or on the ranks together |
| `Harvests.PassedRunSawEveryPass` | internal/controller/burninrun_controller.go:2054-2071 | a run that ends Passed saw, for each required verdict that is no skip, such a pass |
| `Harvests.DrainWaits` | internal/controller/burninrun_controller.go:1937-1986 | while an attempt of the current test is under way no drain but an immediate one ends the run |
| `RunLaws.KilledIsRecorded` | internal/controller/burninrun_controller.go:569-582 | while a run is stepped, every pod it killed belongs to an attempt finished on the durable record |
| `RunLaws.OnlyTheCurrentAttemptIsRead` | internal/controller/burninrun_controller.go:921-930 | no pod outside the current attempt changes any result, so a killed pod is never harvested |
| `RunEnd.SettledIsFinal` | internal/controller/burninrun_controller.go:2245-2302 | over every continuation a settled result, a terminal phase and the cancelling mark stay |
| `RunEnd.CancelIsOneWay` | internal/controller/burninrun_controller.go:1937-1986 | once the cancelling mark is durable no pod is created, no settled result changes, and the run can only end Cancelled |
| `RunEnd.JoinersFollowTheRoot` | internal/controller/pair.go:296-374 | a client or worker is created only behind a Ready first rank of its attempt, and an existing node of the unit then carries this run's stamp exactly when no other owner's was on it as that rank was created |
| `RunEnd.WithheldExactly` | internal/controller/cordon.go:569-582 | in every reachable state of a run under way, no sweep gives back any of a set of nodes if and only if every one of them that carries the run's stamp is under a live pod, held by an open result, or a node of an unsettled unit with a live pod |
| `RunEnd.UnitsInFlightKeepTheirNodes` | internal/controller/burninrun_controller.go:803-812 | so no sweep gives back a node of an unsettled unit while one of its pods is live, a pod that very sweep created included |
| `RunEnd.PhaseIsBacked` | internal/controller/burninrun_controller.go:2054-2071 | Failed rests on a required failure, Passed on no required failure or error, Cancelled on a request |
| `RunEnd.FinalizeExactly` | internal/controller/burninrun_controller.go:2054-2071 | in every reachable state, the pass that ends a run calls it Passed exactly when each unit of each required test was skipped or earned its pass, Failed exactly when a required unit failed, and Error otherwise |
| `RunEnd.RunEndsExactlyWhenDone` | internal/controller/burninrun_controller.go:553-600 | a pass in its launch window whose writes land ends the run if and only if every verdict the plan owes was given or a required failure stops the plan |
| `RunEnd.EveryOwedVerdictIsStopped` | internal/controller/burninrun_controller.go:2022-2052 | the step that ends a run for its deadline or drains it gives every verdict owed, begun or not, Error or Cancelled, and changes none already given |
| `RunEnd.EndedRunIsClosed` | internal/controller/burninrun_controller.go:2093-2160 | a run that has ended leaves no result open |
| `RunEnd.StampsGoUnloaded` | internal/controller/burninrun_controller.go:2180-2327 | whatever step takes the run's stamp off a node that is still there leaves no pod on it that has not ended |
| `RunCap.LoadStaysUnderTheCap` | internal/controller/burninrun_controller.go:931-971 | at a fixed cap, with pods that build and results open before pods end, the nodes under load never outnumber the cap |
| `RunExamples.CapNeedsTheRecord` | internal/controller/burninrun_controller.go:998-1016 | a history at cap one that puts two nodes under load, because a pod was first seen ended |
| `RunExamples.CapNeedsPodsThatBuild` | internal/controller/burninrun_controller.go:944-949 | a history at cap one that puts two nodes under load, because a pod could not be built |
| `RunExamples.LoweredCapKeepsItsLoad` | internal/controller/plan.go:744-749 | a history that ends over a lowered cap, because nothing is stopped for it |
| `RunExamples.LoweredCapOverhangs` | internal/controller/pair.go:180-187 | a sweep that counts a client's node past a lowered cap |
| `RunExamples.ForeignStampLeavesTheNodeBare` | internal/controller/cordon.go:481-489 | a history in which a pair's client runs on an existing node that carries nobody's stamp |
| `RunExamples.SettledPairLetsGo` | internal/controller/cordon.go:569-582 | a history after which a settled pair commits only its live server's node, and any sweep may give back the client's |
| `Exposition.RunPhaseSamples` | internal/metrics/metrics.go:318-329 | the run reads as being in the phase it reported and in no other |
| `Exposition.CountPhases` | internal/metrics/metrics.go:339-342 | the count of each phase seen is the number of results in it |
| `Exposition.TallySamples` | internal/metrics/metrics.go:331-349 | every phase, known or merely seen, has its count of results, and no other phase has one |
| `Exposition.EarliestStart` | internal/metrics/metrics.go:575-587 | the least recorded start |
| `Exposition.LatestFinish` | internal/metrics/metrics.go:589-601 | the greatest recorded finish |
| `Exposition.ResultSamples` | internal/metrics/metrics.go:375-412 | the phase series of every node a result covered and its registered numeric readings, the last statement under each identity and nothing else |
| `Exposition.SamplesOf` | internal/metrics/metrics.go:306-412 | everything one delivery says, each sample under its own identity and its run's labels |
| `Exposition.RunIsFiled` | internal/metrics/metrics.go:318-375 | the phase, tallies, start and finish of a delivery, as labels and values |
| `Exposition.LastPhaseIsFiled` | internal/metrics/metrics.go:375-389 | the last result under a name that covers a node gives that node its phase series, with the value one |
| `Exposition.LastReadingIsFiled` | internal/metrics/metrics.go:391-412 | the last registered number under a test, node and name is published, under its node only if the result covers exactly one |
| `Exposition.NothingElseIsFiled` | internal/metrics/metrics.go:375-412 | every published test series is a result on one of its nodes or a registered number |
| `Exposition.OneClaimant` | internal/metrics/metrics.go:150-157 | a published series is one run's, under one identity |
| `Exposition.OnePhasePerTestAndNode` | internal/metrics/metrics.go:150-157 | no two published phase series share run, test and node |
| `Exposition.ExactMeans` | internal/metrics/metrics.go:466-488 | every sample of every tracked run is published with its value, and nothing else is |
| `Exposition.Write` | internal/metrics/metrics.go:474-476 | the gauges with a run's samples written over them |
| `Exposition.RemoveStale` | internal/metrics/metrics.go:477-486 | exactly the series the run published before and not now are removed |
| `Exposition.Oldest` | internal/metrics/metrics.go:559-566 | the least recently observed run |
| `Exposition.Exporter.Apply` | internal/metrics/metrics.go:466-488 | the gauges remain exactly the union of the runs' latest samples |
| `Exposition.Exporter.ForgetRun` | internal/metrics/metrics.go:543-552 | a run goes with every series it published |
| `Exposition.Exporter.Forget` | internal/metrics/metrics.go:493-498 | one run is forgotten and the rest stay published |
| `Exposition.Exporter.Sweep` | internal/metrics/metrics.go:507-524 | exactly the runs not alive are forgotten, and counted |
| `Exposition.Exporter.Evict` | internal/metrics/metrics.go:557-573 | the limit is met exactly, and everything kept was seen no earlier than anything evicted |
| `Exposition.NoneTrimmed` | internal/metrics/metrics.go:557-573 | within the limit eviction takes nothing |
| `Exposition.NewestSurvives` | internal/metrics/metrics.go:557-573 | the only run seen later than every other survives |
| `Exposition.Exporter.SetMaxRuns` | internal/metrics/metrics.go:267-276 | a limit below one is ignored; any other is met at once by taking the least recently seen and no more, and counting them |
| `Exposition.Exporter.Observe` | internal/metrics/metrics.go:306-418 | one run is replaced by everything the delivery says, the rest keep their samples, only the least recently seen beyond the limit go, and under a moving clock the run just observed stays |
| `Schedule.DueTick` | internal/controller/burninschedule_controller.go:511-538 | the latest eligible tick of the window and the number of the others, or a resync past the scan limit |
| `Schedule.WindowIsSplit` | internal/controller/burninschedule_controller.go:501-538 | below the limit a window is at most one chosen tick, the latest eligible, plus the missed count |
| `Schedule.AddMissed` | internal/controller/burninschedule_controller.go:603-612 | the counter adds exactly and stays at its ceiling once it would pass it |
| `Schedule.CreatedTicksIncrease` | internal/controller/burninschedule_controller.go:225-253 | over any passes, clocks, edits and crashes the ticks that created runs strictly increase, so none creates two |
| `Schedule.ResyncCatchesUp` | internal/controller/burninschedule_controller.go:178-188 | past a thousand due ticks a written pass moves the cursor to its own time, creates nothing, and leaves nothing due |
| `Schedule.DueTickFires` | internal/controller/burninschedule_controller.go:188-253 | otherwise the latest tick within the deadline takes the cursor and creates a run, or is spent by a failed create, or is missed under Forbid with a run listed |
| `Schedule.ExpiredWindowWaits` | internal/controller/burninschedule_controller.go:178-188 | a window all past its deadline is counted and left where it is |
| `Schedule.NothingLeftDue` | internal/controller/burninschedule_controller.go:178-215 | after a written pass something is still due if and only if the whole window had expired |
| `Schedule.OneRunAtATime` | internal/controller/burninschedule_controller.go:188-202 | under the Forbid policy, with a list that shows the run just created, at most one run of the schedule is active |
| `Schedule.StaleListStartsAnother` | internal/controller/burninschedule_controller.go:323-349 | over a list that misses an active run, the next due tick starts a second one |
| `Schedule.AccountKeptExactly` | internal/controller/burninschedule_controller.go:178-215 | within the scan and counter limits a pass keeps the account if and only if it does not write over a window whose ticks have all expired |
| `Schedule.EveryTickAccounted` | internal/controller/burninschedule_controller.go:178-215 | over any passes none of which does that, deadlines included, every tick up to the cursor created a run, was spent, or was missed |
| `Schedule.DeadlineCountsTwice` | internal/controller/burninschedule_controller.go:178-188 | a window of expired ticks is counted again by the next pass |
| `Schedule.Scheduler.Reconcile` | internal/controller/burninschedule_controller.go:118-215 | a pass that gets as far as its fate allows equals the step the laws are about |
| `Schedule.Scheduler.Fire` | internal/controller/burninschedule_controller.go:225-253 | the cursor is written before the run is created, so a failed create spends the tick |

## Left out

- Pod, Service and volume construction, log reading and exit-code parsing: inputs of a sweep.
- The group verdict fold: a group's combined report is an input.
- Messages, conditions, start and finish times of results, artifacts, envelopes and sinks: none decides a phase.
- Plan compression, profile resolution, variants and the plan-time checks that read one test's own fields: only names and topology are checked, and the pinned plan is an immutable value. A plan that no longer decodes is not modelled.
- `finalizeError`, TTL and pending-delivery retries.
- Results are a map from execution unit to result, so their order in the status is not modelled; unique test names make the unit the same key as the test name and first node.
- The list of cordoned nodes is a set, and the sorted order of reported overlaps is not modelled.
- Cron parsing and time zones: a schedule is a function giving the next tick after an instant.
- History collection of a schedule's finished runs.
- The manager's concurrency: one reconcile per run, and the exporter's mutex.
- Prompt killing of overdue pods, and delivery guaranteed across a crash between the terminal write and the pending mark: the code promises neither.
- Heat-marker coverage of pair and group pods after the unit's start.
- Stamps.ParseInstantExact: only the UTC form the operator prints is read back; offsets and fractional seconds are refused here and accepted by the library.
- Stamps.ParseHeatExact: the expiry of a heat marker is read in that form only.
- Planning.BuildPlan: the checks that read one test's own fields (environment, capabilities, thresholds, axes, host paths, soak arithmetic) are not modelled.
- Soak.AggregateLaw: sums are exact reals, where the code adds 64-bit floats and prints them back.
- A deleted pod is gone at once (`RunProtocol.Cleaned`), where the API's delete returns while the pod is still terminating and its nodes may be given back in that time.
- RunCap.LoadStaysUnderTheCap: one way. Each hypothesis has a history that needs it, but the states from which the cap can still be exceeded are not characterised.
- RunEnd.JoinersFollowTheRoot: a node deleted and created again during an attempt is not modelled; a deleted node stays gone.
