# Kaalm: a verified model of its protocols

Kaalm runs AI agents on Kubernetes. This project models, in Dafny, the parts of it
whose promises span many steps, and proves those promises for every input, every
run and every crash point. `dafny verify dfyconfig.toml` checks everything.

- **Store** (`Store*.dfy`, `MessageDedup.dfy`): the agent runtime's key-value map and
  reply cache, a snapshot plus an append-only log. `StoreLog` is the bytes,
  `StoreReplay` and `StoreReplayExact` the records, `StoreLru` the cache window,
  `StoreCrash` the volume with a crash between any two steps and older runtimes that
  rewrite the snapshot in between, and `StoreObject` the store itself, updated in place. The JSON encoder is any function that has a
  decoder, writes no newline, and writes nothing a proper prefix of which decodes;
  `StoreCodec` shows that there is one.
- **AgentTask** (`Task*.dfy`): the run-to-completion state machine, one step per API
  write, with the gateway, the Pods and the owner acting in between and the process
  stopping anywhere. A completion is checked in one step and lands in another.
  `TaskOutcome` says what each outcome means, `TaskReconciler` is the reconciler in place.
- **Budget** (`Budget*.dfy`): the spend reducer, a grow-only counter over replicas
  that come and go, and its archive of the period before.
- **Agent** (`Agent*.dfy`, `GatewayActivity.dfy`): wake, idle, hibernate and Degraded,
  with times stored in whole seconds. `AgentPhases` says when each phase is entered,
  `AgentReconciler` is the reconciler in place.
- **Drift slots** (`Drift*.dfy`): admission to Pod replacement from a lagging cache
  and in-memory reservations.
- **Fallback scan** (`Fallback*.dfy`): the walk over a fallback graph, the text of its
  findings and back, and the memory of what was announced.
- **Two companions**: the own-write event filter (`OwnWrites.dfy`) and the probe
  backoff (`ProbeBackoff.dfy`).

A state machine module gives the steps as functions; a proof module gives an
invariant of every step and what follows for runs; where the source updates fields
in place, a class does so too and each method is proved to take the machine's step.
Some machines carry history variables, named in their module comments, that no step
reads but to tell that a UID is new.

## Where the code and its comments part

The model follows the code. In each case there is a run that shows the difference
and an exact condition for the comment to hold.

- A log replayed over the snapshot of a compaction that stopped before emptying it
  reproduces keys exactly, but reply order only under a condition, since a recall
  moves an id without a record (agentruntime/store.go:370-371;
  `StoreReplayExact.ReplayExactIff`, `StoreReplayExact.RecallBreaksReplay`).
- Clearing currentPodUID before the mailbox is emptied is to keep a stale completion
  out of the fresh mailbox, but the gateway checks a cached AgentTask and patches later,
  so one that was checked before still lands after
  (internal/controller/agenttask_controller.go:629-637, internal/gateway/completion.go:120-140,
  internal/gateway/async.go:169-178; `TaskAttribution.CompletionAttribution`,
  `TaskStale.LateReportSettles`).
- Within an attempt a Pod that replaces another inherits its report
  (internal/controller/agenttask_controller.go:287-361, api/v1beta1/agenttask_types.go:139;
  `TaskAttribution.RecordingDecides`, `TaskStale.StaleReportSettles`).
- A pass whose Pod list lags behind a create makes a second Pod
  (internal/controller/agenttask_controller.go:1033-1056; `TaskPods.OnePodIff`,
  `TaskPods.LaggingListCreatesTwo`), and an earlier attempt's Pod can become the current
  one (`TaskPods.EarlierPodIsCurrent`).
- A replacement Pod is to get a full idle window from Ready, and the mark that says so is
  stored before the Pod is created. Two things lose it: the phase, which the window goes
  by too, is stored later and a stop in between leaves it out; and a drifted replacement
  that is refused a slot has its mark overwritten, though one that waits for its
  Certificate keeps it
  (internal/controller/agent_controller.go:1217-1227, 1291-1297, 1380-1406;
  `AgentReplaced.ClockRestartsIff`, `AgentFloor.RestartLost`,
  `AgentReplaced.RefusedLosesRestart`).
- A woken Agent loses that window when its Pod crash-loops on the way up
  (internal/controller/agent_controller.go:1229-1262; `AgentWoken.WokenRestartsIff`,
  `AgentWoken.CrashLosesRestart`).
- An Idle Agent can return to Running without new activity when the gateway's record
  is missing on just the pass that turned it Idle
  (internal/controller/agent_controller.go:543-604; `AgentActivity.ReturnsIff`,
  `AgentActivity.MissingRecordOscillates`).
- The drift cap needs the status write of a grant and the cache together to be faster
  than a reservation lives, and no write to outlive the process
  (internal/controller/agent_drift_slots.go:74-140;
  `DriftBounds.CapNeedsPromptness`, `DriftBounds.SlowBreaksCap`).
- A gateway Pod's figure is to be folded in after its last publish, but a pass lists the
  Pods from a cache before it reads the figures, so a Pod it misses is folded in and
  counted again (internal/controller/modelprovider_budget.go:43-68, 190-213;
  `BudgetRuns.SpendConservedIff`, `BudgetRuns.MissedPodCountsTwice`).

## Model

| member | source | states |
|---|---|---|
| `StoreReplay.KvReplayIsExact` | agentruntime/store.go:348-387 | replaying any suffix of the history over the keys of any prefix that reaches into it gives the keys of the whole history, so records a snapshot already holds change no key |
| `StoreReplay.LastWriterDecides` | agentruntime/store.go:187-212 | what a key holds after a replay is decided by the last record on it alone |
| `StoreReplay.HeldReply` | agentruntime/store.go:465-475 | a reply held after a replay is the one of the last record of its id, or the one the snapshot had when the log has none |
| `StoreReplay.RepliesNeverStale` | agentruntime/store.go:348-387 | a log replayed over a snapshot that may hold part of it leaves no reply older than the last one recorded for its id, whatever was evicted or reordered |
| `StoreReplay.RepliesComplete` | agentruntime/store.go:465-475 | while the history names no more ids than the window holds, such a replay brings back a reply for every one of them |
| `StoreReplay.ReplayEvictsNothing` | agentruntime/store.go:465-475 | under the same bound no replay of any part of the history evicts |
| `StoreReplayExact.ReplayExactIff` | agentruntime/store.go:465-475 | replaying any log, whatever else it records and however often it delivers an id, leaves a cache as it was if and only if the cache has the last reply of each id it shares with the log and the ids a first-in, first-out window of its order would miss are none or bring that order back; for repeated ids that condition is followed id by id, and its closed form is that of distinct ids |
| `StoreReplayExact.DistinctReplayExactIff` | agentruntime/store.go:465-475 | for a log that delivers no id twice the part about the order comes to: all delivered ids are held, or they fill the window and are its order |
| `StoreReplayExact.UnknownDeliveriesReplayExactly` | agentruntime/store.go:187-193 | when no id is delivered twice, each was unknown as it was remembered and none was recalled, a second replay of the log, with its sets and deletes, reproduces replies and order, evictions included |
| `StoreReplayExact.RecallBreaksReplay` | agentruntime/store.go:369-384 | the order does change when the window is full, the oldest id is recalled, and one more is delivered before the replay |
| `StoreLru.HeldIff` | agentruntime/store.go:444-487 | an id is answered from the cache exactly while fewer than the window's size of distinct other ids were first remembered or recalled since its own last use |
| `StoreLru.OrderIsByLastUse` | agentruntime/store.go:479-487 | of two held ids the one used longer ago comes first in the order, so it is evicted first |
| `StoreLru.RunByLastUse` | agentruntime/store.go:444-487 | in any run of remembers and recalls from an empty store the order list is the duplicate-free list of the ids last used, by last use, and no longer than the window |
| `StoreState.RememberKeepsWf` | agentruntime/store.go:465-475 | remembering keeps the order a duplicate-free list of exactly the held ids, within the size |
| `StoreState.TouchKeepsWf` | agentruntime/store.go:479-487 | touching a held id keeps the same, and every reply |
| `StoreState.TouchOrderShape` | agentruntime/store.go:479-487 | touching moves the id to the end and keeps the relative order of all others |
| `StoreState.ReplayKeepsWf` | agentruntime/store.go:187-212 | so does every replay |
| `StoreLog.ScanStopsAtFirstBadLine` | agentruntime/store.go:142-172 | reading the log stops at the first line that is neither blank nor a record, keeps exactly the records before it, and the good prefix ends with the last of those lines |
| `StoreLog.ParseByLines` | agentruntime/store.go:142-172 | the position loop over the bytes reads what splitting the file into lines and reading them in order reads |
| `StoreLog.CutKeepsRecords` | agentruntime/store.go:173-182 | cutting any byte string back to its good prefix loses no record and leaves a file every byte of which is read |
| `StoreLog.AppendAddsRecord` | agentruntime/store.go:262-289 | appending a record to such a file, with the extra newline when its last line is not ended, adds exactly that record |
| `StoreLog.TornAppend` | agentruntime/store.go:262-289 | an append cut off after any number of bytes adds the record exactly when all of its bytes but the newline arrived, and otherwise nothing |
| `StoreCodec.LawfulExists` | agentruntime/store.go:262-289 | the laws asked of the encoder can be met |
| `StoreCodec.EncodeEnds` | agentruntime/store.go:262-289 | an encoding with marked ends is no beginning of another's |
| `StoreCrash.CrashSafety` | agentruntime/store.go:119-183 | after any run of sets, deletes and remembers with any number of crashes, mid-append, after the temporary file or between rename and truncate, the keys that come back are those of a history with every acknowledged operation and, of the one in flight at each crash, all or nothing |
| `StoreCrash.RecoveredRepliesFresh` | agentruntime/store.go:348-387 | and every reply that comes back is the last one that history gave its id, with none missing while the window holds all ids |
| `StoreCrash.DiscardIsSafe` | agentruntime/store.go:130-141 | where this runtime alone wrote the volume and the clock does not go back, a log strictly older than the snapshot changes no key, so it may be dropped |
| `StoreCrash.NewerSnapshotWins` | agentruntime/store.go:119-141 | by the files' modification times alone: what comes up is the snapshot whenever it is strictly newer than the log, which is emptied, and otherwise the log's records over it |
| `StoreCrash.RewriteSurvives` | agentruntime/store.go:130-141 | after an older runtime, which knows no log, has rewritten the snapshot later than the log's last append, none of the records it left behind comes back: whatever runs and crashes follow, the keys recovered are its file's under the operations since |
| `StoreObject.Store.constructor` | agentruntime/store.go:84-112 | the store comes up with the keys the volume recovers to and its log sealed into the snapshot, and with exactly what the volume recovers to when the snapshot's order list is in step with its replies |
| `StoreObject.Store.LoadSnapshot` | agentruntime/store.go:216-258 | keys and replies are the snapshot's; the listed ids that have a reply come first, an order list out of step with the replies is reconciled, and one the store wrote is kept as it is |
| `StoreObject.Store.ReplayLines` | agentruntime/store.go:142-172 | the line loop applies exactly the records of the good prefix and finds its length |
| `StoreObject.Store.ReplayLog` | agentruntime/store.go:119-183 | a log is applied in full and cut back to its good prefix exactly when it holds bytes and no snapshot is strictly newer than it by modification time; otherwise memory stays the snapshot's and the log is empty |
| `StoreObject.Store.ApplyLocked` | agentruntime/store.go:187-212 | a set puts its value, or null, under its key, a delete removes its key, a remember holds its reply; a record of another kind, or without the key, id or reply it needs, is refused and changes nothing |
| `StoreObject.Store.AppendRecord` | agentruntime/store.go:262-289 | the file keeps being the snapshot plus the records since; it is compacted exactly when the log is longer than four times the snapshot and than a megabyte, and what the volume recovers to gains the record's effect |
| `StoreObject.Store.CompactLocked` | agentruntime/store.go:348-387 | the snapshot becomes what is in memory and the log empty |
| `StoreObject.Store.RememberLocked` | agentruntime/store.go:465-475 | the in-place eviction loop does what remembering one id means |
| `StoreObject.Store.RememberId` | agentruntime/store.go:456-461 | the reply is held in memory within a window of 1024, with nothing evicted while there is room, and what the volume recovers to is memory itself or gains the same reply |
| `StoreObject.Store.Recall` | agentruntime/store.go:444-452 | a hit returns the held reply and makes the id the last used; a miss changes nothing |
| `StoreObject.Store.TouchLocked` | agentruntime/store.go:479-487 | the index loop moves a held id to the end of the order |
| `StoreObject.Store.SetKV` | agentruntime/store.go:498-503 | sets one key and nothing else, and keeps memory and volume in step |
| `StoreObject.Store.DeleteKV` | agentruntime/store.go:506-511 | removes one key and nothing else, and keeps memory and volume in step |
| `StoreObject.Store.CloseStore` | agentruntime/store.go:392-407 | after a clean shutdown the snapshot alone holds every key, and is what memory holds unless nothing was logged since it was written |
| `StoreObject.KeepKnown` | agentruntime/store.go:239-244 | the listed ids that have a reply, in order, repetitions included |
| `StoreObject.AddMissing` | agentruntime/store.go:245-255 | every id with a reply has a place, those listed first |
| `StoreObject.Reconciled` | agentruntime/store.go:239-255 | a list without repetition ends with each id that has a reply once, and unchanged when it already was so |
| `MessageDedup.OneAnswerPerMessage` | agentruntime/agent.go:191-225 | while no more ids were recorded than the window holds, all 200 replies ever sent for one non-empty message id are equal and each is a result a handler returned, with crashes between handler, record and reply |
| `MessageDedup.ErrorsAreNeverCached` | agentruntime/agent.go:206-225 | whatever is held for an id, in memory or by what comes back from the volume, is a result a handler returned for it, however many ids were recorded; an error leaves no record |
| `MessageDedup.HandleMessage` | agentruntime/agent.go:191-225 | a known id is answered from the store, an unknown one with the handler's result, which is recorded only when it is a reply that encodes; one that does not, held or new, is answered with 500 |
| `TaskAttribution.CompletionAttribution` | internal/controller/agenttask_controller.go:629-708 | over a whole run the mailbox holds only reports of the current attempt outside a retry, if and only if no completion lands in a later attempt than the gateway checked it in, and none lands between the emptying of the mailbox and the write that reopens the AgentTask |
| `TaskAttribution.LandsInTimeIff` | internal/controller/agenttask_controller.go:629-708 | a completion lands in the attempt it was checked in exactly when no retry was reopened in between |
| `TaskStale.LateReportSettles` | internal/controller/agenttask_controller.go:629-708 | a run in which one is: checked before the deadline counts a retry and landing after the AgentTask is reopened, the first attempt's report settles the second |
| `TaskProofs.SuccessIsComplete` | internal/controller/agenttask_controller.go:561-582 | an AgentTask settled Succeeded by report has artifact names exactly equal to the declared ones |
| `TaskSenders.RunKeepsSenders` | internal/controller/agenttask_controller.go:638-708 | in every reachable state whoever reported, or is about to, is a Pod of the current attempt or of one a counted retry has ended |
| `TaskSenders.RunKeepsLive` | internal/controller/agenttask_controller.go:343-361 | and outside a retry a live Pod that did is the current one, while a Pod about to be recorded is alone and did not |
| `TaskAttribution.RecordingDecides` | internal/controller/agenttask_controller.go:343-361 | every report acted on is the current Pod's own, over a whole run, if and only if every new current Pod is recorded over an empty mailbox and every completion lands while the Pod it was checked for is still the current one |
| `TaskAttribution.ReportIsCurrentPods` | internal/controller/agenttask_controller.go:483-526 | in such a run the mailbox of a Running or Completing AgentTask was written by its current Pod alone |
| `TaskStale.StaleReportSettles` | internal/controller/agenttask_controller.go:287-361 | a run that is not: a Pod reports before it is seen Ready and is lost, its replacement is recorded over that report, and the AgentTask settles Succeeded on it though the replacement reported nothing |
| `TaskProofs.OnePodAtATime` | internal/controller/agenttask_controller.go:672-708 | when passes list every Pod created before, an AgentTask has at most one Pod; and Retries never exceeds the limit |
| `TaskPods.OnePodIff` | internal/controller/agenttask_controller.go:1038-1056 | when the lists lag, it never has two over a run if and only if no pass comes to the create with nothing to hold or refuse it, its Certificate ready and a list that shows none of the Pods there are |
| `TaskPods.LaggingListCreatesTwo` | internal/controller/agenttask_controller.go:287-328 | and a pass that follows a create too soon does create a second |
| `TaskPods.EarlierPodIsCurrent` | internal/controller/agenttask_controller.go:672-708 | then a retry deletes one of the two, and the other, of the attempt before, becomes the current Pod of the next |
| `TaskPods.ShownIsRun` | internal/controller/agenttask_controller.go:1038-1056 | a run whose lists show every Pod is a run of the machine, so every result about those holds of it |
| `TaskProofs.StepProgress` | internal/controller/agenttask_controller.go:621-736 | every phase change of every step decreases the pair of retries left and phase rank, and no step increases it |
| `TaskProofs.PhaseChangesBounded` | internal/controller/agenttask_controller.go:264-277 | whatever Pods, gateway and API server do and however often the controller stops, the phase changes at most 7 backoffLimit + 5 times |
| `TaskProofs.EachFailureCountedOnce` | internal/controller/agenttask_controller.go:638-662 | Retries equals the number of attempts that failed into a retry, however often finishing one is interrupted, rejected or repeated |
| `TaskProofs.SettledStays` | internal/controller/agenttask_controller.go:712-736 | a settled AgentTask never changes again but to Terminating |
| `TaskProofs.RunKeeps` | internal/controller/agenttask_controller.go:128-261 | the invariant over Pods, their attempts, the current Pod and the place in the pass that these results rest on holds in every reachable state |
| `TaskOutcome.SettledMeans` | internal/controller/agenttask_controller.go:561-736 | every settled AgentTask settled once, at a step that had the cause its phase names: Succeeded on a success report with exactly the declared artifacts, on a container that ended well, or late with no word where the policy counts that as success; TimedOut late with no word where it does not; Failed on a lost attempt with the retries used up, or where the class forbids it before it has a Pod; and nothing but its deletion changed it since |
| `TaskOutcome.OutcomeIff` | internal/controller/agenttask_controller.go:483-628 | from an AgentTask that is still going a step reaches each outcome if and only if that cause is there, and counts a retry if and only if the attempt is lost and a retry is left |
| `TaskOutcome.CompletingVerdict` | internal/controller/agenttask_controller.go:561-606 | the outcome of a Completing pass by the mailbox's keys, the container and the clock: a report decides before the container, the container before the clock, and a report that counts is kept with its artifacts |
| `TaskOutcome.OneVerdict` | internal/controller/agenttask_controller.go:561-606 | an attempt is won, out of time or lost, and only one of them |
| `TaskOutcome.MovesIff` | internal/controller/agenttask_controller.go:283-526 | when an attempt starts Running, when it goes to Completing and with which Pod, when a Pod is created, and that no other step does any of it |
| `TaskOutcome.RecordsFirst` | internal/controller/agenttask_controller.go:343-361 | a Pod is recorded, and made the one the gateway listens to, in a write before it is judged |
| `TaskOutcome.RetryClears` | internal/controller/agenttask_controller.go:672-708 | finishing a retry deletes the Pod, then empties the mailbox, then reopens the AgentTask, and a refused write ends the pass with nothing changed |
| `TaskOutcome.ExpiresIff` | internal/controller/agenttask_controller.go:741-760 | a settled AgentTask goes to Terminating exactly when its time to live is over, and is deleted by the next write of that pass or by its owner |
| `TaskOutcome.DeletionTakesPod` | internal/controller/agenttask_controller.go:1201-1218 | a pass over an AgentTask that is being deleted deletes its Pod |
| `TaskOutcome.AcceptsIff` | internal/gateway/completion.go:109-140 | a completion is accepted exactly from the Pod the status names, with something in it, while the AgentTask has no outcome; and that Pod is then of the current attempt |
| `TaskReconciler.ToldInOnePass` | internal/controller/agenttask_controller.go:483-606 | a Running AgentTask whose report is in, whose container has ended or whose time is up is decided by that very pass |
| `TaskReconciler.FinishKeeps` | internal/controller/agenttask_controller.go:128-261 | an uninterrupted pass ends at rest and keeps that invariant |
| `TaskReconciler.FinishIsRun` | internal/controller/agenttask_controller.go:128-261 | an uninterrupted pass is a stretch of a run of the machine |
| `TaskReconciler.Reconciler.constructor` | internal/controller/agenttask_controller.go:128-140 | a new AgentTask is the machine's first state |
| `TaskReconciler.Reconciler.Reconcile` | internal/controller/agenttask_controller.go:128-261 | one pass, in place, does what the machine does with nothing in between, and keeps the invariant |
| `TaskReconciler.Reconciler.ProvisionTask` | internal/controller/agenttask_controller.go:283-406 | provisioning, in place, as the machine's steps |
| `TaskReconciler.Reconciler.CreatePod` | internal/controller/agenttask_controller.go:305-328 | the Pod is created and then recorded in a second write |
| `TaskReconciler.Reconciler.RecordPod` | internal/controller/agenttask_controller.go:343-361 | recording makes the Pod the current one and leaves the mailbox alone |
| `TaskReconciler.Reconciler.JudgePod` | internal/controller/agenttask_controller.go:363-406 | a recorded Pod is judged by its phase and readiness |
| `TaskReconciler.Reconciler.RunTask` | internal/controller/agenttask_controller.go:483-526 | Running ends by report, by the Pod's end or by the deadline |
| `TaskReconciler.Reconciler.CompleteTask` | internal/controller/agenttask_controller.go:561-606 | Completing settles Succeeded, TimedOut or Failed, or counts a retry and finishes it, by the verdict on report, container and clock |
| `TaskReconciler.Reconciler.FailOrRetryTask` | internal/controller/agenttask_controller.go:621-628 | a failed attempt is counted and retried within the limit, and settles beyond it |
| `TaskReconciler.Reconciler.FinishRetry` | internal/controller/agenttask_controller.go:672-708 | deleting the Pod, emptying the mailbox and returning to Provisioning, in that order and each repeatable |
| `TaskReconciler.Reconciler.DeletePod` | internal/controller/agenttask_controller.go:673-682 | a Pod not yet being deleted is, and a rejected delete ends the pass |
| `TaskReconciler.Reconciler.EmptyMailbox` | internal/controller/agenttask_controller.go:684-702 | a mailbox that is not empty is emptied, and a rejected update ends the pass |
| `TaskReconciler.Reconciler.SettleTask` | internal/controller/agenttask_controller.go:712-736 | settling records the outcome and completes the AgentTask |
| `TaskReconciler.ReadMailbox` | internal/controller/agenttask_desired.go:470-482 | status and message are the values under their keys, and the artifact entries exactly those under the artifact prefix |
| `TaskReconciler.ValidateArtifactNames` | internal/controller/agenttask_desired.go:487-505 | the names are valid exactly when no reported one is undeclared and, on success, no declared one is missing |
| `BudgetRuns.SpendConserved` | internal/controller/modelprovider_budget.go:212-249 | when every pass lists at least the Pods that live as it reads the figures, then however publishes, Pod starts, Pod removals and passes interleave within a period, live partials plus the accumulator equal the sum of the last figure of every replica that ever existed |
| `BudgetRuns.SpendAccounted` | internal/controller/modelprovider_budget.go:190-249 | with passes on any lists they equal that sum and, besides, every figure folded in before its replica published again |
| `BudgetRuns.SpendConservedIff` | internal/controller/modelprovider_budget.go:190-249 | so spend is conserved over a run, namespace by namespace, if and only if no pass folds in a figure that is not zero of a replica that publishes again |
| `BudgetRuns.MissedPodCountsTwice` | internal/controller/modelprovider_budget.go:43-68 | and a pass whose list misses a live replica does count its figure twice once it publishes again |
| `BudgetRuns.CanonicalIsOwed` | internal/controller/modelprovider_budget.go:212-249 | what such a pass writes as the canonical figures is exactly that sum, and the pass does not change it |
| `BudgetRuns.ReduceTwice` | internal/controller/modelprovider_budget.go:336-400 | running the pass again on the same list changes nothing |
| `BudgetRuns.Conserved` | internal/controller/modelprovider_budget.go:336-400 | the invariant the accounting rests on gives that sum in every state that satisfies it |
| `BudgetRuns.FoldReduces` | internal/controller/modelprovider_budget.go:336-400 | the figures the key loop accumulates are the sums over the keys of each kind, and the data it leaves are the same with the folded keys gone |
| `BudgetFold.FoldKeys` | internal/controller/modelprovider_budget.go:336-400 | the loop over the keys, in whatever order the map gives them, is the fold of the whole map |
| `BudgetFold.KeyFates` | internal/controller/modelprovider_budget.go:336-400 | key by key and by the entries' own period and provider UID: which keys a pass keeps, which figures count as current, which join the accumulator, and when it has changed something |
| `BudgetFold.ArchivedKeys` | internal/controller/modelprovider_budget.go:336-400 | a budget pass archives exactly the readable figures of other periods that carry the provider's UID or none, and raises the margin exactly for a counted figure that asks for it |
| `BudgetFold.ForeignKeyIgnored` | internal/controller/modelprovider_budget.go:355-361 | a key that carries another provider's UID is gone after the pass, and the pass does in everything else what it does without that key |
| `BudgetFold.VisitKey` | internal/controller/modelprovider_budget.go:336-400 | a key written for a deleted provider of the same name is deleted and adds to nothing; any other joins the sum and the archive material it belongs to, and is removed exactly when it was folded or is stale |
| `BudgetFold.VisitRetired` | internal/controller/modelprovider_budget.go:363-374 | the accumulator is carried within its period and provider UID, and archived or dropped otherwise |
| `BudgetFold.VisitGone` | internal/controller/modelprovider_budget.go:375-383 | a current figure of a Pod that is gone joins the accumulator, and its key goes |
| `BudgetFold.VisitLive` | internal/controller/modelprovider_budget.go:384-397 | a live figure counts and stays; an old one goes |
| `BudgetFold.TotalRemove` | internal/controller/modelprovider_budget.go:336-400 | a total does not depend on which key is taken first |
| `BudgetFold.AddInto` | internal/controller/modelprovider_budget.go:218-220 | adding two spend maps adds their figures namespace by namespace |
| `BudgetArchive.ArchiveIsJoin` | internal/controller/modelprovider_budget.go:447-490 | after any passes within one period the archive holds the newest old period sighted and, by source and namespace, the largest figure sighted for it; one of another rollover or provider UID is dropped by the first pass |
| `BudgetArchive.OnePassJoins` | internal/controller/modelprovider_budget.go:447-490 | one pass, by the stored archive's own fields: one of another rollover or provider UID counts for nothing, any other is joined with what the pass met; and what is stored then is of this rollover and provider |
| `BudgetArchive.JoinIsUnique` | internal/controller/modelprovider_budget.go:447-490 | that determines the archive, so neither the order of passes nor that of keys matters |
| `BudgetArchive.MergeArchive` | internal/controller/modelprovider_budget.go:447-490 | one pass joins what it met into the archive, and reports a change whenever there is one |
| `BudgetArchive.MergeSources` | internal/controller/modelprovider_budget.go:471-488 | every source met in the archived period is raised, in any order, and no other |
| `BudgetArchive.RaiseSource` | internal/controller/modelprovider_budget.go:475-487 | raising takes the larger figure namespace by namespace |
| `BudgetArchive.NewestPeriod` | internal/controller/modelprovider_budget.go:455-460 | the newest period among the stale keys |
| `BudgetArchive.SpendConfigMap.ReconcileBudget` | internal/controller/modelprovider_budget.go:190-291 | the pass in place: fold, accumulator, canonical figures, archive |
| `BudgetArchive.SpendConfigMap.ReconcileAgentSpend` | internal/controller/modelprovider_agentspend.go:59-131 | the agent-spend pass in place: the same fold, so the same conservation, and no archive |
| `AgentProofs.ActivityNeverDecreases` | internal/controller/agent_controller.go:522-625 | over any run, interrupted or not, the stored lastActivityTime never moves back or disappears |
| `AgentProofs.WindowAfterRestart` | internal/controller/agent_controller.go:567-623 | after a replaced or woken Pod restarts the idle clock at t, the Agent is Idle only after t + idleTimeout and Hibernating or Hibernated only after t + idleTimeout + hibernationDelay, up to the second cut off by storing a time; Degraded counts as what it goes back to |
| `AgentProofs.WakeIsNotLost` | internal/controller/agent_controller.go:410-476 | no step clears the wake request while the stored phase is Hibernating or Hibernated |
| `AgentProofs.DegradedIsRemembered` | internal/controller/agent_controller.go:827-841 | preDegradedPhase is set exactly while the phase is Degraded, and is never Degraded |
| `AgentProofs.DegradedRoundTrip` | internal/controller/agent_controller.go:724-744 | any number of Degraded passes, interrupted or not, and then clearing restores the phase held on entry, unless the Agent is being deleted |
| `AgentProofs.RunKeeps` | internal/controller/agent_controller.go:143-322 | every reachable state satisfies the invariant on times, Degraded, wake and restart that these rest on |
| `AgentFloor.RestartsIff` | internal/controller/agent_controller.go:1243-1262 | the pass that finds a Pod Ready restarts the clock if and only if the phase is neither Running nor Idle and is Resuming or the mark tells of a replacement |
| `AgentFloor.CoveredIff` | internal/controller/agent_controller.go:1284-1314 | at rest a mark of a replacement never goes with the phase Running, Idle or Hibernating, over a whole run, if and only if the process never stops between storing the mark and storing the phase of a Running or Idle Agent |
| `AgentFloor.RestartLost` | internal/controller/agent_controller.go:1291-1297 | such a stop does lose the restart: the replacement's first Ready pass turns the Agent Idle |
| `AgentReplaced.ClockRestartsIff` | internal/controller/agent_controller.go:1163-1277 | the first pass after any stretch of a run to find the Pod Ready restarts the clock if and only if a phase without a Ready Pod was stored, in the stretch or before, and either a mark of a replacement stands that no pass overwrote since, or a wake that no crash loop interrupted |
| `AgentReplaced.RefusedLosesRestart` | internal/controller/agent_controller.go:1380-1406 | a replacement that has drifted and is refused a slot loses the restart, though no step was cut short: that it waits is stored over the mark |
| `AgentReplaced.StretchEffect` | internal/controller/agent_controller.go:1163-1314 | mark and phase after a stretch without a Ready pass are what its passes stored and overwrote |
| `AgentReplaced.RunAwake` | internal/controller/agent_controller.go:480-512 | a mark of a replacement is never stored for an Agent that is Hibernating or Hibernated |
| `AgentWoken.WokenRestartsIff` | internal/controller/agent_controller.go:1229-1262 | a woken Agent with no replacement marked restarts the clock when its Pod turns Ready if and only if no pass on the way found the Pod in a crash loop |
| `AgentWoken.CrashLosesRestart` | internal/controller/agent_controller.go:1229-1262 | and one that did turns Idle on the very pass that finds the Pod Ready |
| `AgentActivity.ReturnsIff` | internal/controller/agent_controller.go:586-604 | with its Pod Ready an Idle Agent returns to Running exactly when the merged record is newer than the stored time at second resolution |
| `AgentActivity.ReturnNeedsNewer` | internal/controller/agent_controller.go:586-604 | in no other way does any step take it from Idle to Running |
| `AgentActivity.EntryRemembers` | internal/controller/agent_controller.go:567-585 | the pass that turns an Agent Idle stores a time no older than the record it saw |
| `AgentActivity.SameRecordNeverReturns` | internal/controller/agent_controller.go:543-622 | an Agent that turned Idle on a pass that saw a record never goes from Idle to Running while every pass sees that record or none, through any storing of times and any replacement of its Pod |
| `AgentActivity.SilenceNeverReturns` | internal/controller/agent_controller.go:543-566 | with no record it never does either, though the stand-in for the record advances |
| `AgentActivity.MissingRecordOscillates` | internal/controller/agent_controller.go:543-566 | but when the record is missing on just the pass that turns the Agent Idle, its return takes the Agent back to Running |
| `AgentPhases.IdlesIff` | internal/controller/agent_controller.go:567-585 | with its Pod Ready an Agent that is not Idle turns Idle if and only if the timeout is set, the clock did not restart and nothing the pass knows, stored time, record or, without one and with a replica up for long enough, the time it entered Running, is more recent than the timeout; otherwise it is Running |
| `AgentPhases.HibernatesIff` | internal/controller/agent_controller.go:586-622 | with its Pod Ready an Idle Agent hibernates if and only if hibernation is on, the Certificate is ready, no record is newer than what is stored and all the pass knows is longer ago than timeout and delay together; it returns on a newer record and stays Idle otherwise |
| `AgentPhases.SwitchedOff` | internal/controller/agent_controller.go:522-625 | over every run, with hibernation off no Agent is ever Hibernating, Hibernated or Resuming, nor goes back to that from Degraded, and with a timeout of zero none is ever Idle either |
| `AgentPhases.EntersIff` | internal/controller/agent_controller.go:143-322 | an Agent enters Terminating exactly when it is deleted, Degraded exactly on a violation, Hibernated exactly when Hibernating with its Pod gone, Resuming exactly when woken from Hibernated, each of them also when Degraded clears and it was held before |
| `AgentPhases.PodPhasesIff` | internal/controller/agent_controller.go:1155-1314 | Failed exactly on a Pod in a crash loop that is not being replaced, Provisioning exactly while there is no Pod to serve and the Agent was not woken, and only a Ready Pod takes an Agent to Running, Idle or Hibernating |
| `AgentPhases.WakesIff` | internal/controller/agent_controller.go:410-476 | a wake request stands from being asked for until a pass finds the Agent neither Hibernating nor Hibernated, or until the write after the one that stored Resuming with the activity time set to now |
| `AgentPhases.ActivityTimeIs` | internal/controller/agent_controller.go:522-625 | the activity time changes only with a clock that restarts, to now, with an Agent that turns Idle, to the latest time its silence is counted from, and with one that returns, to the record it returned on |
| `AgentPhases.SinceIs` | internal/controller/agent_controller.go:1548-1564 | the transition time is that of the last change of phase |
| `AgentPhases.MarkIs` | internal/controller/agent_controller.go:1337-1406 | the mark a pass leaves, by what became of the Pod: disrupted, replaced, waiting for a slot or for the Certificate, current, or none after hibernating |
| `AgentReconciler.Reconciler.Reconcile` | internal/controller/agent_controller.go:143-322 | one pass, in place, does what the machine does when it is not interrupted, and keeps the invariant |
| `AgentReconciler.Reconciler.EvaluateActivity` | internal/controller/agent_controller.go:522-625 | the activity step, in place, on what the replicas answered; Running turns Idle, and Idle turns Running or Hibernating, exactly under the conditions on silence, record, Certificate and configuration above |
| `AgentReconciler.Reconciler.ConvergePod` | internal/controller/agent_controller.go:1155-1314 | the Pod step, in place, with its early write of the mark |
| `AgentReconciler.Reconciler.ConvergeLivePod` | internal/controller/agent_controller.go:1229-1277 | a live Pod sets the phase, the clock and the mark |
| `AgentReconciler.Reconciler.Disrupted` | internal/controller/agent_controller.go:1337-1344 | the mark is set only over a mark that tells of no replacement, and the answer says whether it was |
| `AgentReconciler.Reconciler.HandleWake` | internal/controller/agent_controller.go:435-476 | a wake commits Resuming, stores it, and only then clears the request |
| `AgentReconciler.Reconciler.DriveHibernating` | internal/controller/agent_controller.go:480-512 | Hibernated is stored once the Pod is gone, and its mark with it |
| `AgentReconciler.Reconciler.ReconcileDegraded` | internal/controller/agent_controller.go:724-744 | entering keeps the phase, staying changes nothing, leaving restores it in one write |
| `AgentReconciler.Reconciler.MarkDeleted` | internal/controller/agent_controller.go:1480-1486 | deletion clears preDegradedPhase and ends in Terminating |
| `AgentReconciler.Reconciler.MoveTo` | internal/controller/agent_controller.go:1548-1564 | only a change of phase restarts the transition time |
| `AgentReconciler.Reconciler.WriteStatus` | internal/controller/agent_controller.go:1811-1815 | stored times are whole seconds |
| `AgentReconciler.Reconciler.ConvergeAndWrite` | internal/controller/agent_controller.go:283-318 | Pod step, activity step and one write are the machine's pass |
| `GatewayActivity.MergedActivity` | internal/controller/agent_activity.go:232-262 | the result is the newest time any replica holds under the Agent's source among those not older than the Agent: cutting the newest is cutting each |
| `GatewayActivity.RecordedIff` | internal/controller/agent_activity.go:250-257 | what counts as a time of the Agent is a replica's traffic time, heartbeat time or either, by the Agent's source |
| `GatewayActivity.MergeIgnoresOrder` | internal/controller/agent_activity.go:232-262 | neither the order of the replicas nor repeated answers change it |
| `GatewayActivity.Qualified` | internal/controller/agent_controller.go:549-555 | silence counts exactly when some replica has been up for the idle timeout |
| `DriftRuns.CapHolds` | internal/controller/agent_drift_slots.go:91-140 | at every moment of every run, with reconciles in any order, failed and delayed writes, a lagging cache and restarts, the Agents replacing their Pod or granted and not yet written are no more than the cap, when write delay plus cache lag stay below the reservation's 30 seconds and a restart cuts off the writes under way |
| `DriftRuns.IdleFirst` | internal/controller/agent_drift_slots.go:132-137 | no Agent that is not Idle is granted a slot while the cache shows another, Idle, Agent of the class waiting |
| `DriftRuns.AskGrantedIff` | internal/controller/agent_drift_slots.go:91-140 | an ask is granted if and only if fewer other Agents than the cap are shown replacing or hold a reservation of the last 30 seconds, and the asker is Idle or no Idle Agent is shown waiting; an Agent that only waits takes no slot |
| `DriftRuns.StepKeeps` | internal/controller/agent_drift_slots.go:91-140 | the invariant that ties reservations, cache and grants is kept by every step |
| `DriftBounds.CapNeedsPromptness` | internal/controller/agent_drift_slots.go:91-140 | the cap holds in every run of every class if and only if write delay plus cache lag are below the 30 seconds and no write outlives a restart |
| `DriftBounds.SlowBreaksCap` | internal/controller/agent_drift_slots.go:105-109 | otherwise two Agents of a class of two replace their Pods at once |
| `DriftBounds.WriteOutlivesRestart` | internal/controller/agent_drift_slots.go:74-84 | the case of the restart: the reservation is lost, the write lands, and the second Agent is granted meanwhile |
| `DriftSlots.CapIsCeiling` | internal/controller/agent_drift_slots.go:51-63 | a percentage caps at the least number of Agents that reaches it, and never at none |
| `DriftSlots.CapCases` | internal/controller/agent_drift_slots.go:51-63 | a count caps at itself and never at none; a limit that is missing or cannot be read counts as a quarter of the class |
| `DriftSlots.Slots.constructor` | internal/controller/agent_drift_slots.go:74-84 | no reservation to begin with |
| `DriftSlots.Slots.DropExpired` | internal/controller/agent_drift_slots.go:105-109 | exactly the reservations older than 30 seconds go |
| `DriftSlots.Slots.CountInUse` | internal/controller/agent_drift_slots.go:111-131 | the other holders of a slot are counted once each, by cache or reservation, and a reservation the cache shows goes |
| `DriftSlots.Slots.Acquire` | internal/controller/agent_drift_slots.go:91-140 | a grant is given exactly when the other Agents shown replacing or reserved within 30 seconds are fewer than the cap and no Idle Agent is passed over; it reserves the slot, and of the other reservations those stay that are neither expired nor shown |
| `FallbackScan.FallbackIneligibility` | internal/controller/modelprovider_fallback_eligibility.go:112-166 | on any fallback graph, cyclic ones included, the scan ends; every finding is true of a provider that a chain of existing providers, eligible up to it, leads to from a model of the primary, each reference's model map renaming the model on the way or leaving it where it has no entry; and for every caller and model all of the primary's fallbacks and of those of eligible providers were come to, with all that is wrong with them reported |
| `FallbackScan.EmptyScanAdmitsAll` | internal/controller/modelprovider_fallback_eligibility.go:112-166 | an empty result for a model and a caller means that every existing provider a chain of existing ones leads to admits the caller, and offers the model carried to it on a chain of eligible providers |
| `FallbackScan.FollowCarries` | internal/controller/modelprovider_fallback_eligibility.go:130-134 | the model the walk carries along a route is the one the references' maps give, one after another |
| `FallbackScan.Walker.Walk` | internal/controller/modelprovider_fallback_eligibility.go:124-151 | after the walk below a provider, all of its existing fallbacks are visited, and those of every eligible provider met |
| `FallbackScan.Walker.Visit` | internal/controller/modelprovider_fallback_eligibility.go:127-149 | a visit marks the provider and reports exactly what is wrong with it |
| `FallbackScan.Walker.constructor` | internal/controller/modelprovider_fallback_eligibility.go:122-123 | a walk starts at the primary with the findings of the walks before it |
| `FallbackScan.Judge` | internal/controller/modelprovider_fallback_eligibility.go:135-146 | a provider is eligible exactly when it admits the caller and offers the model, and each failing check is one finding |
| `FallbackScan.OneWalk` | internal/controller/modelprovider_fallback_eligibility.go:121-153 | the walk for one caller and model visits all it must and adds exactly the findings of what it visited |
| `FallbackText.SplitFindings` | internal/controller/modelprovider_fallback_eligibility.go:437-454 | the index loop with its quote flag finds the parts between separators outside quoted values |
| `FallbackText.SplitOfJoinIff` | internal/controller/modelprovider_fallback_eligibility.go:437-454 | splitting a joined list gives the list back if and only if every entry but the last has closed quotes, complete escapes and no separator outside quotes, and the last has no such separator |
| `FallbackText.JoinOfSplit` | internal/controller/modelprovider_fallback_eligibility.go:437-454 | joining the parts of any text gives the text back |
| `FallbackMessage.ReadBack` | internal/controller/modelprovider_fallback_eligibility.go:404-432 | reading back the message of any findings, whatever they quote, gives the first ten in order and the number of them all |
| `FallbackMessage.FindingsMessage` | internal/controller/modelprovider_fallback_eligibility.go:406-412 | the message joins the first ten findings and a count of the rest |
| `FallbackMessage.ListedFindings` | internal/controller/modelprovider_fallback_eligibility.go:417-432 | the parts of a message that are not a count are its entries, and the count adds to the total |
| `FallbackMessage.ListedNote` | internal/controller/modelprovider_fallback_eligibility.go:272-295 | after a restart the note names the entries that the stored message does not list, in order, and leads with the total exactly when it grew |
| `FallbackMessage.RestartIsSilentIff` | internal/controller/modelprovider_fallback_eligibility.go:272-295 | so the first pass after a restart is silent if and only if every finding it lists was listed before and there are no more findings than there were |
| `FallbackMessage.RenderIsWhole` | internal/controller/modelprovider_fallback_eligibility.go:136-146 | a text of plain words and quoted values has closed quotes and no separator outside them, whatever the values |
| `FallbackMessage.MessageNamesFinding` | internal/controller/modelprovider_fallback_eligibility.go:136-146 | no two findings have the same message: provider, namespace, model and primary model can be told from it |
| `FallbackMessage.MoreRoundTrip` | internal/controller/modelprovider_fallback_eligibility.go:394-402 | a count is read back as the number it was written from |
| `FallbackMessage.MessageIsNoCount` | internal/controller/modelprovider_fallback_eligibility.go:394-402 | no finding reads as a count |
| `FallbackMemory.Announces` | internal/controller/modelprovider_fallback_eligibility.go:336-381 | a pass whose status is stored announces what it found beyond the last stored pass over the same provider UID and is what the next is compared with; one that is not stored announces nothing and is not compared with; another UID starts with no memory |
| `FallbackMemory.SteadyFindingIsSilent` | internal/controller/modelprovider_fallback_eligibility.go:304-332 | a recorded finding that every later pass finds again is never announced again, however many of those passes fail |
| `FallbackMemory.MemoryTracks` | internal/controller/modelprovider_fallback_eligibility.go:336-389 | over any history the memory holds exactly the last stored pass of each provider, and the pass under way |
| `FallbackMemory.Memory.constructor` | internal/controller/modelprovider_fallback_eligibility.go:304-332 | an empty memory to begin with |
| `FallbackMemory.Memory.Lookup` | internal/controller/modelprovider_fallback_eligibility.go:336-344 | the remembered findings, for the same UID only |
| `FallbackMemory.Memory.Stage` | internal/controller/modelprovider_fallback_eligibility.go:347-358 | the pass's findings and note wait for its end |
| `FallbackMemory.Memory.SetEligibility` | internal/controller/modelprovider_fallback_eligibility.go:193-219 | the note names what is new against the memory, or everything when the stored condition lists nothing |
| `FallbackMemory.Memory.Settle` | internal/controller/modelprovider_fallback_eligibility.go:363-381 | the end of a pass keeps its findings and sends its note exactly when its status is stored |
| `FallbackMemory.Memory.Forget` | internal/controller/modelprovider_fallback_eligibility.go:384-389 | a deleted provider is forgotten |
| `OwnWrites.DroppedIff` | internal/controller/own_status_write.go:89-109 | an update event is dropped if and only if it is that of the reconciler's own last write, every pass since read exactly that version, the provider was not found gone, and the event is seen for the first time |
| `OwnWrites.StaleReadRunsAgain` | internal/controller/own_status_write.go:66-77 | after a pass on any other copy the event of the write is let through, so another pass follows |
| `OwnWrites.HeldIff` | internal/controller/own_status_write.go:57-77 | a record is held exactly while nothing has touched it since the write |
| `OwnWrites.Filter.constructor` | internal/controller/own_status_write.go:50-53 | no record to begin with |
| `OwnWrites.Filter.Record` | internal/controller/own_status_write.go:57-64 | a write replaces the record |
| `OwnWrites.Filter.ReadStale` | internal/controller/own_status_write.go:70-77 | a read of any other version drops it |
| `OwnWrites.Filter.Forget` | internal/controller/own_status_write.go:80-84 | a provider that is gone has none |
| `OwnWrites.Filter.SkipOwn` | internal/controller/own_status_write.go:89-109 | the answer to an update event, and the one use of the record |
| `ProbeBackoff.ProbeRequeue` | internal/controller/probe_backoff.go:43-55 | a wait is never below the interval, and above it only while the provider is failing, by no more than the time it has failed, and up to ten intervals and ten minutes |
| `ProbeBackoff.BackoffDoubles` | internal/controller/probe_backoff.go:43-55 | for probes run exactly when asked for during one failure, the n-th wait is 2^n times the first, up to ten intervals or ten minutes and never below the interval; the first is the interval plus whatever part of a second storing the failure's time cut off |

## Left out

- Input and output errors of the store other than crashes and torn appends: a write, sync or rename that returns an error is not modelled.
- StoreObject.Store.constructor: a snapshot order list that repeats an id, which only an edit by hand produces, is left out; the load keeps the repetition and eviction would then count it twice.
- StoreObject.Store.SetKV: keys and values are not empty, as the only callers prefix the key and pass encoded JSON (agentruntime/memory.go:37-49).
- StoreObject.Store.DeleteKV: keys are not empty, for the same reason.
- StoreCrash.RewriteSurvives: an older runtime rewrites the snapshot after the log's last append by the volume's clock; within one tick of it the stale log is replayed, as StoreCrash.NewerSnapshotWins says.
- Message deliveries are one after another, as the dedup check and the record are not one step in the source.
- StoreObject.Store.AppendRecord: the length of a written snapshot is an abstract function of what it holds.
- Reads of the AgentTask and of the mailbox by the reconciler see every earlier write; a status write from an older copy would be refused as a conflict.
- TaskProofs.OnePodAtATime: the main machine's passes list every Pod created before; TaskPods says what holds when they do not, for the number of Pods, and shows that attribution to an attempt can then fail.
- TaskReconciler.ReadMailbox: the message it reads is not carried into the status, which no decision depends on.
- AgentTask deadlines, class checks, API rejections and Certificate readiness are inputs of a pass; effective timeouts and TTLs would only add easy members.
- Money is whole cents and periods are numbered; archive figures that do not parse, series, labels and status text of the budget are not modelled.
- A gateway Pod that is gone does not publish and its name is not used again; what a replica publishes for a deleted provider of the same name comes before its first figure for this one.
- One clock reading per Agent pass; the gateway's records lie in the past; requeue times, events, metrics and condition texts of the Agent are not modelled.
- Wakes that reach a Degraded Agent are cleared by the code, so that every wake is honoured is not claimed.
- DriftSlots.Slots.Acquire: the list is read in the same step as the lock is taken, while the source lists at line 96 and locks at line 100.
- DriftRuns.CapHolds: a grant given on a copy of the Agent that is out of date is not counted, as its status write must fail; a restarted controller first sees all writes made before.
- FallbackScan.FallbackIneligibility: gives the set of findings; their order by text is not modelled, and admission patterns are the set of callers they match.
- FallbackMessage.ReadBack: values longer than the quoting limit and messages over the condition's size limit are not cut, and escapes other than those of quotes and backslashes are not written.
- FallbackMessage.FindingsMessage: does not cut the message at the condition's size limit, which ten findings with values cut at the quoting limit stay under.
- FallbackMemory.Announces: a note is the set of findings it names; the one of a pass right after a restart, which comes from the stored message, is the subject of FallbackMessage.RestartIsSilentIff.
- OwnWrites.DroppedIff: resource versions are not empty; for an empty one the source's map read cannot tell a record from none.
- Builders of Kubernetes objects, TLS, HTTP, probes, the console, the gateway and the command line: input and output or field copying.
