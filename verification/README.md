# ratchet-cli: durable protocols, modelled and proved in Dafny

The project models the parts of ratchet-cli that have to survive crashes, failing writes and other processes, and
proves what they promise. `dafny verify dfyconfig.toml` checks everything.

**Background drains** (`BackgroundDisk`, `BackgroundRace`, `BackgroundLocks`, `BackgroundSafety`,
`BackgroundTheorems`, `BackgroundProgress`, `BackgroundOverlap`, `BackgroundManager`, `AuditLog`). The manager keeps a
policy file, a write-ahead journal, an append-only audit log and one lease file per session. Every durable write has
three ends: not applied, applied with an error, applied. `BackgroundRace` is the machine of one session in which
Start, Stop, Resume, a finishing worker, Shutdown, other sessions' audit records and crashes interleave write by
write; its theorems hold over all runs. `BackgroundManager` is the class with the manager's maps and files, many
sessions at a time, whose methods (Start, Stop, a worker's end, Resume) run to their end under a script of write
outcomes, from any disk that crashes of the sessions' machines can leave (`EveryCrashPointCanResume`), and one manager
after another on the same files (`StartThenRestart`). `AuditLog` is the log as bytes, with appends that stop after any
byte.

**The ACP session queue** (`SessionQueue`, `SessionLaws`, `SessionStore`, `DrainRace`, `DrainTheorems`, `DrainSends`,
`DrainTexts`, `DrainWatch`, `EventLog`, `Lines`). `SessionQueue` says what each store transaction does to a session
record and `SessionLaws` what that means for its prompts, turns and status; the class in `SessionStore` does it with the
source's loops. `DrainRace` interleaves a lease-holding drain, step by step, with appends, cancellations, lifecycle
updates and crashes, and keeps what the drains send and count. `DrainWatch` runs `drainQueueOwned` and `WatchQueue` on
the store class. `EventLog` is the two-file commit of the sessions file and a session's event log, as bytes.

**Provider save operations** (`ProviderOps`, `ProviderRows`, `ProviderReplies`, `ProviderManager`, `ProviderGates`,
`GateTheorems`). `ProviderOps` is the state machine over the tables, the secret store, flights, cleanup workers,
panics and restarts, with no lock at all: what it proves does not rest on locking. `ProviderRows` says what a save
puts into the provider rows. `ProviderManager` is the class whose methods carry out those steps, with startup
reconciliation. `ProviderGates` is the lock machine: the manager mutex, the reference-counted alias gates and the
provider rows mutex.

**History compaction and lineage** (`SessionTables`, `Compaction`, `Lineage`, `SessionDb`, `CompactionReads`,
`CompactionOverlap`, `SessionService`). The session, message and compaction tables, the operations on them as a class,
and the rebuilding of everything ever saved from the tables alone. Other requests save messages while a compaction
runs.

## Where the code differs from what one expects

- After a successful Stop has persisted, the exiting worker may persist too: an earlier Stop of the same session that
  failed hands the worker its persistence, and a second Stop can succeed before the worker gets to it.
  `BackgroundOverlap.StopDoesNotSilenceAnExitingWorker` gives the run and `BackgroundTheorems.PersistsAfterStopIff` the
  exact condition. What a Stop does guarantee is `BackgroundTheorems.StopHolds`.
- A prompt whose drain crashes between sending it and recording the reply is sent again
  (`DrainSends.InterruptedPromptIsSentAgain`). `DrainSends.SentAgainIff` says which prompts can be: of those that were
  sent, exactly the ones that are pending or running under an open latch, and the one that a drain has its runner
  started for.
- A save that is answered "failed" because its alias is busy was never journaled, and a retry with the same id can still
  be committed. `ProviderReplies.ImmediateFailureIsFinalIff` says when such an answer is final: exactly if the id was
  journaled.
- A compaction reads the history twice, and its transaction deletes what is there at the third moment
  (`internal/daemon/chat.go`, lines 645, 652 and 694). Messages that are saved meanwhile do two kinds of damage:
  - one saved after the second read is deleted without being archived or kept, and there is no other loss:
    `CompactionReads.EverythingSurvivesIff`, with an instance in `CompactionReads.LateMessageVanishes`;
  - one saved between the two reads is archived, but it shifts the ids: the kept lines come from the first read and their
    ids from the second, so they keep their ids exactly if there is none: `CompactionReads.KeptIdsIff`, with an instance
    in `CompactionReads.MessageBetweenShiftsIds`.

  The records of the compaction still tell how to put everything ever saved together exactly if there was neither:
  `CompactionReads.GivenBackIff`, and over any run of the operations `SessionDb.TablesGiveBackEverythingIff`. What
  happened to its archives since does not matter.
- After two compactions of one session that overlap the records give lines back twice, unless the second one's second
  read came after the first one's commit and found no more messages than it removed:
  `CompactionOverlap.OverlapGivenBackIff`.
- `AppendEventLog` does not add the newline that the last line of a log may lack, and then makes the log unreadable;
  `EventLog.PlainAppendReadsBackIff` gives the condition and `EventLog.UnterminatedLogBreaks` an instance for every
  encoding. The two-file commit does add it.
- A process that dies between the log write and the sessions write leaves the new events in the log and the old sessions
  file; the next transition numbers on from them: `EventLog.EventStore.TransitionSession`,
  `EventLog.NumbersOnAfterDeath`.
- `DrainResult.Completed` also counts a prompt that the store recorded as canceled because the session was latched
  meanwhile (`internal/acpclient/drain.go:189-192`, `internal/acpclient/store.go:871-876`).
  `DrainSends.CountedIsCompletedIff` says that a counted prompt is recorded completed exactly if the latch was open, and
  `DrainSends.CountsAddUp` that over any run this happens to the last counted prompt at most;
  `DrainSends.CountedPromptMayBeCanceled` reaches it.
- Compressed rows lose the tool columns (`internal/daemon/chat.go:612-624`); what is proved lossless is role and content.

## Model

| member | source | states |
|---|---|---|
| BackgroundDisk.LastForIsIn | internal/acpclient/background.go:1347-1384 | the audit record that reconciliation takes is the session's own, and it finds one whenever there is one |
| BackgroundDisk.AuditAfterKeeps | internal/acpclient/background_audit.go:103-115 | an append keeps record ids unique and the log growing, and success means the id is in the log |
| BackgroundDisk.ReconcileAuditKeepsLive | internal/acpclient/background.go:1347-1406 | audit-driven reconciliation never changes an enabled policy without journal entry, and keeps the disk invariant |
| BackgroundLocks.StepKeepsLocks | internal/acpclient/background.go:1412-1495 | every step of Start, Stop, Resume, a worker, Shutdown or a crash keeps the ownership invariant of reservation, lease and worker slot |
| BackgroundSafety.TermStepSafe | internal/acpclient/background.go:1239-1284 | every sub-step of a terminal transition, whatever its write outcome, keeps the disk invariant and disables nothing unaudited |
| BackgroundSafety.LaunchStepSafe | internal/acpclient/background.go:1124-1154 | every sub-step before a launch keeps the disk invariant; a policy is enabled only with its journal entry or its audit record in place |
| BackgroundSafety.StepIsSafe | internal/acpclient/background.go:484-869 | every step of the interleaving machine keeps the durable-state invariant |
| BackgroundTheorems.LeaseHasOneHolder | internal/acpclient/background.go:930-948 | in every reachable state at most one place can release the session lease, it is held exactly if one can, it is released exactly as often as acquired once all have ended |
| BackgroundTheorems.OneLiveWorker | internal/acpclient/background.go:930-948 | at most one worker of a session is live, it is the active one, and the lease is held for it |
| BackgroundTheorems.PersistsAfterStopIff | internal/acpclient/background.go:1010-1112 | the worker that a persisted Stop awaits persists itself if and only if it had begun to exit when that Stop reserved the session |
| BackgroundTheorems.HandoffIsNeverLost | internal/acpclient/background.go:596-652 | a worker waiting for its Stop's word has it or that Stop is still going to send it |
| BackgroundProgress.AdmissionIsFree | internal/acpclient/background.go:950-971 | when a request wants launch admission, no worker of its session is recording its end under it and no other request is being admitted |
| BackgroundProgress.EveryThreadMovesOrAwaitsAMover | internal/acpclient/background.go:484-971 | in every reachable state each unfinished request and worker can move, an admitted one by launching unless the manager has closed, or waits for one that can: no circle of waiting |
| BackgroundTheorems.NoLaunchWhileStopped | internal/acpclient/background.go:702-869 | from a stopped state no run without a new Start launches the session |
| BackgroundTheorems.StopHolds | internal/acpclient/background.go:596-652 | after a successful Stop no run of crashes, restarts, Resumes and worker exits launches the session or finds its policy enabled until a later Start |
| BackgroundTheorems.OnlyStartEnables | internal/acpclient/background.go:1124-1154 | a policy goes from disabled to enabled only in the policy write of a Start |
| BackgroundTheorems.EveryCrashPoint | internal/acpclient/background.go:1239-1284 | at every crash point audit ids are unique, a live policy has a launch as its last record, and a disabled policy not flagged degraded has its matching record committed |
| BackgroundOverlap.WatchingIsReachable | internal/acpclient/background.go:484-594 | a Start whose writes are all confirmed leads to a watching worker |
| BackgroundOverlap.OverlapIsReachable | internal/acpclient/background.go:1443-1483 | from any watching worker a failing and then a persisting Stop lead to a state where both have persistence in hand |
| BackgroundOverlap.StopDoesNotSilenceAnExitingWorker | internal/acpclient/background.go:1010-1112 | a concrete reachable state in which a Stop has persisted and the worker it awaits is persisting |
| BackgroundManager.FaultlessTermRun | internal/acpclient/background.go:1239-1284 | with no failing write a valid terminal transition ends in success |
| BackgroundManager.TermRunDisables | internal/acpclient/background.go:1239-1284 | a terminal transition, however its writes end, leaves a disabled policy disabled |
| BackgroundManager.TermRunIsValid | internal/acpclient/background.go:1239-1284 | a terminal transition succeeds only if its audit record is valid |
| BackgroundManager.EveryCrashPointCanResume | internal/acpclient/background.go:1239-1329 | files that show every session as some run of its machine leaves it, wherever a crash cuts the run off, are files that the constructor accepts and Resume can recover |
| BackgroundManager.BackgroundManager.AppendAudit | internal/acpclient/background.go:1552-1563 | validate, skip a known id, append: the log after it and its error for every write outcome |
| BackgroundManager.BackgroundManager.PersistTerminalTransition | internal/acpclient/background.go:1239-1284 | the method is the run of the sub-steps, leaves other sessions alone, and on success the policy is disabled, not degraded and no journal entry is left |
| BackgroundManager.BackgroundManager.PersistBeforeLaunch | internal/acpclient/background.go:1124-1154 | on success the policy is stored, the launch is the session's last audit record and the journal is clear; if one of its writes fails alone the session is recorded as Failed over that write, with an error as its last record |
| BackgroundManager.BackgroundManager.ReserveTransition | internal/acpclient/background.go:1412-1431 | a reservation is taken exactly if the manager is open and neither the session nor its lease is taken |
| BackgroundManager.BackgroundManager.ReleaseTransition | internal/acpclient/background.go:1485-1495 | gives back the reservation and the lease and nothing else |
| BackgroundManager.BackgroundManager.LaunchLocked | internal/acpclient/background.go:930-948 | the lease moves from the transition to the worker |
| BackgroundManager.BackgroundManager.LaunchReserved | internal/acpclient/background.go:560-594 | persists and then launches with the transition's lease, or gives the reservation back and launches nothing; a launch that one failing write prevents is recorded as Failed over it |
| BackgroundManager.BackgroundManager.Start | internal/acpclient/background.go:484-594 | launches only what is startable, and does if no write fails; what runs is the stored policy of that profile and its trusted hash, enabled, Running/Started, acknowledged, started and updated now, with a start as its last record and no journal entry, so that a Resume would relaunch it; a launch that one failing write prevents is recorded as Failed over it; an untrusted profile is recorded as Blocked/ProfileUntrusted with its hash and a block as its last record, exactly if it has a hash and no write fails; a refusal changes nothing |
| BackgroundManager.BackgroundManager.ReserveStopTransition | internal/acpclient/background.go:1443-1467 | taken exactly if the manager is open, the session is not reserved and its lease is free or its own worker's; the lease is taken only where there is no worker |
| BackgroundManager.BackgroundManager.Stop | internal/acpclient/background.go:596-652 | says exactly when it is refused; a failing one leaves the worker running; a successful one leaves no worker, no journal entry, the lease free and the old policy recorded as Disabled/Stopped now with a stop as its last record, or as Failed with the worker's outcome and an error as its last record if the worker had failed; it succeeds if no write fails |
| BackgroundManager.BackgroundManager.CollectWorker | internal/acpclient/background.go:622-644 | the worker's lease comes back to the stopping transition and an error it ended with is recorded over a policy that stays disabled |
| BackgroundManager.BackgroundManager.PersistExit | internal/acpclient/background.go:1046-1081 | on success the last record and the disabled policy say how the worker ended: Failed with its outcome and an error, or Disabled with a stop and the outcome Stopped if the session was canceled, Completed if the queue was drained; it never enables a policy |
| BackgroundManager.BackgroundManager.WorkerDone | internal/acpclient/background.go:1010-1112 | the worker and its lease are gone whatever the writes did; what it persisted says how it ended, state, outcome and last record; at manager shutdown nothing is persisted, so the policy stays enabled for the next Resume |
| BackgroundManager.BackgroundManager.LastRecord | internal/acpclient/background.go:1360-1376 | the loop over the log finds the session's last record |
| BackgroundManager.BackgroundManager.ReconcileTerminalAudit | internal/acpclient/background.go:1347-1406 | takes over outcome, time and the state that belongs to the action from the session's last record if that is terminal and of the same profile and hash, and changes nothing otherwise; never changes a live policy and never enables one |
| BackgroundManager.BackgroundManager.ReconcileTransition | internal/acpclient/background.go:1312-1329 | on success the session has the journaled policy, disabled, no journal entry, and the entry's record is in the log |
| BackgroundManager.BackgroundManager.Obstacle | internal/acpclient/background.go:760-830 | an enabled session is relaunched exactly if its state, version, acknowledgement, session and profile all allow it; otherwise which of them fails decides the state, outcome and action it is closed with |
| BackgroundManager.BackgroundManager.ResumePolicies | internal/acpclient/background.go:730-869 | the loop launches exactly the enabled, unblocked sessions; what it launched is the old policy, Running/Resumed and started now, every other enabled one is closed for its reason, and a disabled one is not touched |
| BackgroundManager.BackgroundManager.ResumeAll | internal/acpclient/background.go:702-869 | a successful Resume leaves no journal entry, every session found journaled has the journaled policy, disabled, with its record in the log, exactly the enabled unblocked others run under their old policy, started now, and the blocked ones are closed for their reason; with no failing write it succeeds |
| BackgroundManager.Restart | internal/daemon/service.go:254-280 | a new manager on the files of the one before runs after a successful Resume exactly what was enabled, not journaled and not blocked |
| BackgroundManager.StartThenRestart | internal/acpclient/background.go:484-869 | what Start launched, with the clock not at zero, runs again after the daemon is restarted on the same files, under the same profile, hash and acknowledgement, whenever Resume succeeds |
| AuditLog.ParseLog | internal/acpclient/background_audit.go:190-210 | reading a log of whole valid records gives those records |
| AuditLog.HoldsMeans | internal/acpclient/background_audit.go:169-189 | repair of a log with a torn tail leaves exactly the whole lines, and they read back |
| AuditLog.AppendedHolds | internal/acpclient/background_audit.go:74-143 | an append cut after any byte leaves a log of the old records, with the new one exactly if its newline was written |
| AuditLog.ReadYieldsWritten | internal/acpclient/background_audit.go:74-211 | for any run of appends each cut at an arbitrary byte a reader gets exactly the records whose newline was written, in order, with no duplicate id |
| AuditLog.ParseLines | internal/acpclient/background_audit.go:190-210 | the parse loop accepts a file exactly if every line is a valid record, and returns them in order |
| AuditLog.AuditFile.ReadRepair | internal/acpclient/background_audit.go:169-211 | what is read and what is left of the file, for any bytes and each end of the repair |
| AuditLog.AuditFile.Append | internal/acpclient/background_audit.go:74-143 | an append is accepted exactly if the log reads and repairs, the record is valid, nothing fails and its whole line is written or its id is there already; it is unconfirmed exactly if its line is complete and the write or a later step reports an error; a plain error committed nothing; the log changes as the abstract append of the manager's model |
| SessionQueue.LatchedStep | internal/acpclient/store.go:223-241 | under the latch each operation leaves every prompt as it is or canceled, refuses to mark or append, and records a finishing prompt canceled |
| SessionQueue.LatchIsForever | internal/acpclient/store.go:165-453 | over any run of store operations a latched session stays latched, canceled is final, and no prompt becomes running, completed or failed |
| SessionQueue.LatchClosesIff | internal/acpclient/store.go:362-399 | an open session's latch closes exactly by a cancel request, by canceling its last open prompts, or by a latched lifecycle status |
| SessionQueue.RecoverUndoesMarkRunning | internal/acpclient/store.go:411-453 | recovery after a crash restores the queue from before a prompt was marked running |
| SessionLaws.AppendAddsPrompt | internal/acpclient/store.go:243-284 | an append is refused exactly under the latch; accepted, it keeps the old queue as a prefix and adds one pending prompt with the given id and text |
| SessionLaws.PromptsStay | internal/acpclient/store.go:243-453 | no operation moves a prompt, renames it or changes its text; its status and result change only for that operation's reason |
| SessionLaws.PromptsTurn | internal/acpclient/store.go:299-453 | what an accepted operation must have turned: the marked prompt running, the finished one into its result, pending and running ones by cancellation and recovery |
| SessionLaws.OnMissingRecord | internal/acpclient/store.go:243-284 | which operations make a record where there is none, and what it holds |
| SessionLaws.TurnsGrow | internal/acpclient/store.go:183-221 | an operation appends to the turns the answer of a prompt recorded completed or the turn of an accepted lifecycle update, and nothing else |
| SessionLaws.AcpIdStays | internal/acpclient/store.go:886-901 | the agent's session id changes only to a given one that is not empty, and setting it does so only while there is none |
| SessionLaws.OpenStatus | internal/acpclient/store.go:165-453 | the status that each accepted operation leaves an open session in |
| SessionLaws.LatchedStatus | internal/acpclient/store.go:223-236 | a latched session stays canceled or cancel-requested, and exactly which operations make the latter canceled |
| SessionLaws.RunKeepsPrompts | internal/acpclient/store.go:165-453 | over any run of store operations prompts keep their places, ids and texts, and the turns grow by the answers recorded completed and the lifecycle turns, in order |
| SessionStore.FindQueuedPrompt | internal/acpclient/store.go:903-910 | the loop finds the first prompt with the id |
| SessionStore.CancelPendingLoop | internal/acpclient/store.go:375-384 | cancels exactly the pending prompts, counts them and sees whether one is running |
| SessionStore.RecoverLoop | internal/acpclient/store.go:425-441 | what becomes of each prompt, latched or not, and how many changed |
| SessionStore.TransactionTells | internal/acpclient/eventlog.go:298-367 | a transaction changes its own record alone, exactly if its write was applied, and each end tells what happened to it |
| SessionStore.Store.AppendQueuedPrompt | internal/acpclient/store.go:243-284 | the new sessions file and error for every record state and write outcome; SessionLaws.AppendAddsPrompt says what is in it |
| SessionStore.Store.NextQueuedPrompt | internal/acpclient/store.go:286-297 | the first pending prompt, if any |
| SessionStore.Store.MarkQueueRunning | internal/acpclient/store.go:299-328 | the new sessions file and error for every record state and write outcome |
| SessionStore.Store.MarkQueueFinished | internal/acpclient/store.go:854-884 | the new sessions file and error; a latched session turns the finish into a cancellation |
| SessionStore.Store.CancelPendingQueue | internal/acpclient/store.go:362-399 | the new sessions file, the error and the number canceled |
| SessionStore.Store.RecoverRunningQueueItems | internal/acpclient/store.go:411-453 | the new sessions file, the error, the number changed and whether the session is latched |
| SessionStore.Store.RequestCancel | internal/acpclient/store.go:599-629 | when it is not rejected the session is latched, also a session that did not exist |
| SessionStore.Store.UpdateSessionLifecycle | internal/acpclient/store.go:183-221 | the new sessions file and error; queue and turns survive and the latch is preserved |
| SessionStore.Store.SetACPSessionID | internal/acpclient/store.go:886-901 | sets the agent's session id once |
| SessionStore.Store.CountQueue | internal/acpclient/watch.go:191-203 | the number of pending, or pending and running, prompts |
| DrainRace.MarkKeeps | internal/acpclient/drain.go:129-131 | marking the picked prompt running keeps the queue ordered and everything after it unstarted |
| DrainRace.FinishKeeps | internal/acpclient/drain.go:171-192 | recording the prompt in hand keeps the queue ordered and the record of ended prompts in queue order |
| DrainRace.OtherStepKeeps | internal/acpclient/store.go:243-453 | appends, cancellations and latched recovery by other processes keep the queue ordered |
| DrainTheorems.PromptsRunInQueueOrder | internal/acpclient/drain.go:77-196 | over all interleavings and crashes at most one prompt runs, and every prompt before a running, completed or failed one is terminal |
| DrainTheorems.EndedPromptsAreNeverSentAgain | internal/acpclient/drain.go:171-192 | whatever is sent or ends after a prompt has ended stands later in the queue: completions come in strict queue order and no ended prompt is sent again |
| DrainTheorems.RunnerStartsUnlatched | internal/acpclient/drain.go:143-155 | a drain starts its runner only while the latch is open |
| DrainTheorems.NothingHappensAfterTheLatch | internal/acpclient/drain.go:86-128 | once latched, no run starts a runner or records a prompt completed or failed, every prompt keeps its status or is canceled, and at most one is sent: the one that a drain had its runner started for |
| DrainSends.StepSettles | internal/acpclient/store.go:299-453 | no step moves a prompt, changes the status of an ended or canceled one, or opens the latch |
| DrainSends.StepKeepsSent | internal/acpclient/drain.go:129-171 | every prompt before a sent one is and stays completed, failed or canceled |
| DrainSends.SentAgainIff | internal/acpclient/drain.go:77-196 | in every reachable state a sent prompt can be sent again if and only if the latch is open and it is pending or running, or a drain has its runner started for it |
| DrainSends.InterruptedPromptIsSentAgain | internal/acpclient/drain.go:77-196 | a reachable run sends one prompt twice: its drain crashed before it recorded the reply |
| DrainSends.CountedIsCompletedIff | internal/acpclient/drain.go:189-192 | a prompt that a drain counts as completed is recorded completed if and only if the latch was open, and canceled otherwise |
| DrainSends.CountsAddUp | internal/acpclient/drain.go:171-192 | over any run the drains count every prompt once at most, and as many as are recorded completed among them, or one more if and only if the last counted one was answered after the latch closed |
| DrainSends.CountedPromptMayBeCanceled | internal/acpclient/store.go:871-876 | a reachable state in which a counted prompt is recorded canceled: cancellation was requested while the agent worked on it |
| DrainTexts.WhatIsSentWasAppended | internal/acpclient/drain.go:110-176 | over all interleavings and crashes, what a drain sends the agent for a prompt is the text that was appended under its id and still stands there |
| DrainWatch.DrainTurn | internal/acpclient/drain.go:129-192 | one turn answers exactly the next prompt, in its place, adds its reply to the turns if it was good and keeps the started runner's session id; when the runner does not start the queue is as it was before; no other session changes |
| DrainWatch.DrainLoop | internal/acpclient/drain.go:94-195 | the loop answers exactly the first pending prompts in queue order up to the limit and stops at the first that fails; the queue shows each reply in its place, and the turns grow by the good ones; it reports an error exactly if a prompt failed or the runner was needed and did not start, and in the latter case leaves the queue as it was; its counters add up; no other session changes |
| DrainWatch.DrainQueueOwned | internal/acpclient/drain.go:77-196 | the same after recovery; a latched session is recovered into a canceled one and nothing is sent; an unknown one is an error |
| DrainWatch.CyclesForIsCeiling | internal/acpclient/watch.go:48-174 | the cycles that drain n prompts by m at a time are n / m rounded up |
| DrainWatch.TotalsAreSums | internal/acpclient/watch.go:153-157 | the totals of one more cycle are the old ones plus what it did, and what it left |
| DrainWatch.RunCycle | internal/acpclient/watch.go:101-166 | one cycle is a drain of what it finds or idles, logs what it found, what it did and whether it failed, and keeps the totals |
| DrainWatch.CalmWatch | internal/acpclient/watch.go:82-174 | from what is promised of every cycle and every end alone: a watch in which nothing fails drains the whole queue, and takes the rounded-up quotient and one more cycle, unless its cycle limit comes first |
| DrainWatch.WatchQueue | internal/acpclient/watch.go:48-174 | the watch is a chain of drains and idle cycles from the session it found to the one it leaves, recovered if the watch was canceled; every cycle's pending count is processed plus canceled plus remaining, what a cycle leaves is what the next one finds, and a cycle fails exactly if a prompt or its runner did; the watch fails exactly with its last cycle, none before that failed, and a context that is done beforehand ends it at once; a calm watch that stops when empty ends after exactly the rounded-up quotient plus one cycles, or at its cycle limit; no other session changes |
| EventLog.ValidMessagesAreTheFourShapes | internal/acpclient/eventlog.go:45-95 | validation accepts exactly requests, notifications, result replies and error replies |
| EventLog.ParseTerminated | internal/acpclient/eventlog.go:325-328 | appending whole lines after the missing newline joins what both parts read back as |
| EventLog.ParseLog | internal/acpclient/eventlog.go:204-227 | reading back an encoded log gives the encoded events |
| EventLog.PlainAppendReadsBackIff | internal/acpclient/eventlog.go:130-170 | an append that adds no newline reads back if and only if the old log's tail is blank |
| EventLog.UnterminatedLogBreaks | internal/acpclient/eventlog.go:130-170 | for every encoding, a log of one event without its newline reads, and no longer does after a plain append |
| EventLog.EncodeEventLog | internal/acpclient/eventlog.go:419-443 | the loop encodes the events numbered on, each with its own message, its own direction or inbound if it has none, and its own time or now if it has none, or refuses if one message is invalid |
| EventLog.CommittedLog | internal/acpclient/eventlog.go:316-328 | the new log reads back as the old events followed by the new ones, each as given but for a missing direction or time, numbered on, and 1 to n if the old were |
| EventLog.EventStore.EventLogSnapshot | internal/acpclient/eventlog.go:393-410 | the next number, or a refusal exactly if the log does not read |
| EventLog.NumbersOnAfterDeath | internal/acpclient/eventlog.go:298-328 | the transition after one whose process died between its writes stores its events as given, numbered on from the ones already in the log |
| EventLog.EventStore.TransitionSession | internal/acpclient/eventlog.go:298-367 | done or unconfirmed: both files hold the new state, each new event with the given message, direction and time (inbound and now where missing); failed or died: sessions are old, and so is the log if and only if it was not left replaced by a failing restore or the death of the process, in which case it reads as old and new events |
| EventLog.EventStore.CreateSessionWithEvents | internal/acpclient/archive.go:230-281 | the same for the commit that replaces or removes a left-over log: the log holds the given events, field by field, and its exact bytes in every case |
| ProviderOps.UnreferencedIsStable | internal/daemon/provider_cleanup.go:138-167 | no step makes a known secret name referenced again once it is not |
| ProviderOps.ReferencedIsNotDeleted | internal/daemon/provider_cleanup.go:138-167 | no step deletes a stored secret that a provider or a pending or applied operation references |
| ProviderOps.DefaultKept | internal/daemon/service.go:851-872 | at most one provider is the default after every step |
| ProviderOps.StepKeepsInv | internal/daemon/provider_operations.go:214-540 | every step keeps names known, referenced secrets stored, flights on pending operations, one active operation per alias, and changes recorded once |
| ProviderOps.ReferencedSecretsAreSafe | internal/daemon/provider_cleanup.go:138-167 | in every reachable state the secret of every provider and applied operation is stored, and no next step deletes a referenced one |
| ProviderOps.JournalTellsTheTruth | internal/daemon/provider_operations.go:407-540 | in every reachable state a pending or failed operation changed the provider table never, an applied or committed one exactly once |
| ProviderReplies.RunRefines | internal/daemon/provider_operations.go:462-485 | committed and failed never change and applied only becomes committed, over any run |
| ProviderReplies.ReportedStateHoldsForever | internal/daemon/provider_operations.go:580-597 | a reported failure never changes the table and a reported application changed it exactly once, whatever retries, panics and restarts follow |
| ProviderReplies.UnjournaledCanStillCommit | internal/daemon/provider_operations.go:249-252 | an id that is not journaled can still change the table at the same alias |
| ProviderReplies.ImmediateFailureIsFinalIff | internal/daemon/provider_operations.go:233-252 | an immediate failure answer is final if and only if the id was journaled |
| ProviderRows.CommitJournals | internal/daemon/provider_operations.go:254-266 | a commit journals a pending operation with its alias and secret under a new id, and changes no row |
| ProviderRows.ApplySaves | internal/daemon/provider_operations.go:407-460 | the row gets the operation's secret, or keeps the old one if it has none, and the given default flag; every other row keeps its secret and loses the default only to this one; the displaced secret is queued |
| ProviderRows.RemoveTakesTheRow | internal/daemon/service.go:818-849 | takes the named row alone and leaves operations and stored secrets |
| ProviderRows.SetDefaultMovesTheFlag | internal/daemon/service.go:851-872 | changes flags alone: the named provider is the default, and nobody if it is unknown |
| ProviderRows.FailureQueues | internal/daemon/provider_operations.go:462-485 | a failed flight records the failure and queues its own secret, and changes no row |
| ProviderRows.WhatLeavesTheRowsIsQueued | internal/daemon/provider_operations.go:447-451 | whatever secret a step takes out of the rows is queued for cleanup by that step |
| ProviderRows.LastKeyIsInTheRow | internal/daemon/provider_operations.go:407-460 | in every reachable state, a provider whose last change belongs to an operation with a key has that key in its row, and the key is stored |
| ProviderManager.ProviderManager.ApplyProviderLocked | internal/daemon/provider_operations.go:407-460 | the row of the operation's alias has its secret, or the old one if it has none, and the given default flag, every other row keeps its secret and loses the default only to this one; the displaced secret is queued and the operation applied; or nothing |
| ProviderManager.ProviderManager.FailOperation | internal/daemon/provider_operations.go:462-485 | carries out the failure step |
| ProviderManager.ProviderManager.RecoverPanic | internal/daemon/provider_operations.go:332-340 | after a panic a pending operation is failed, any other is left |
| ProviderManager.ProviderManager.RunFlight | internal/daemon/provider_operations.go:331-366 | a flight is a run of the machine; it commits exactly if nothing failed; if it ends applied or committed the row holds the operation's secret, which is stored, or the old one if it has none, and the displaced one is queued; otherwise no row changed, and its secret is queued if it fails |
| ProviderManager.ProviderManager.CountReferences | internal/daemon/provider_operations.go:748-754 | the count is positive exactly if a provider or a pending or applied operation uses the secret |
| ProviderManager.ProviderManager.ReconcileOperations | internal/daemon/provider_operations.go:712-736 | pending operations are failed, applied ones committed unless their secret is unavailable for now |
| ProviderManager.ProviderManager.ReconcileStartup | internal/daemon/provider_operations.go:712-768 | after success nothing is pending, an operation is applied only while its secret read fails retryably, and exactly the unreferenced stored provider secrets were queued for cleanup |
| ProviderGates.LastReferrer | internal/daemon/provider_operations.go:379-399 | a gate's count is the number of threads that refer to it, and at one nobody else does |
| ProviderGates.CountKept | internal/daemon/provider_operations.go:379-399 | every step keeps the counts of the gate table exact |
| ProviderGates.SharedKept | internal/daemon/provider_operations.go:379-399 | every step keeps all users of an alias on the one gate in the table |
| GateTheorems.OneGatePerAlias | internal/daemon/provider_operations.go:379-405 | two users of an alias share a gate, no two hold it, and the table has gates for exactly the aliases in use |
| GateTheorems.WaitingCommitIsNotNeeded | internal/daemon/provider_operations.go:249-253 | a Commit that holds the manager mutex never waits on a gate whose holder still needs it |
| GateTheorems.SomeThreadMoves | internal/daemon/provider_operations.go:214-294 | deadlock freedom: while any thread is unfinished some thread can move |
| Compaction.CompactionReplacementMessageIDs | internal/daemon/compaction_records.go:95-113 | the loop puts the kept messages' ids behind a fresh one for the summary |
| Compaction.PartIsArchiveWithoutKeptIff | internal/daemon/compression.go:75-100 | the part taken from an archive is all but the kept messages and a leading summary if and only if the archive is what the first read gave |
| Compaction.FullIsRebuilt | internal/daemon/chat.go:562-636 | rebuilding a session from the tables alone, down to the archives of its archives, gives back as much as taking the records' parts from what was saved in the archives |
| Compaction.FullIsSavedIff | internal/daemon/chat.go:562-636 | rebuilding a session from its archives, which may have been compacted and raced themselves, gives everything ever saved if and only if no message was saved while it was being compacted |
| Lineage.RootHasNoParent | internal/daemon/sessions.go:218-232 | following parents ends at a known session without parent |
| Lineage.ForestGrows | internal/daemon/sessions.go:53-80 | a new root, or a child that takes its parent's root, keeps the root column equal to the end of the parent chain |
| Lineage.FamilyMembers | internal/daemon/sessions.go:180-216 | the family of a root is exactly the sessions whose chain ends there |
| Lineage.FamilyOrder | internal/daemon/sessions.go:180-216 | the family is listed in row order, each session once |
| SessionDb.TablesGiveBackEverythingIff | internal/daemon/chat.go:562-636 | after any run of the operations the tables alone give back everything ever saved in a session if and only if no message was saved in it between a compaction's first read and its transaction |
| SessionDb.CompactedKeepsGood | internal/daemon/chat.go:562-636 | a compaction, whatever was saved during it, keeps ids unique and lineage right, and accounts for what every session gives back |
| SessionDb.SessionIsOneMore | internal/daemon/sessions.go:218-295 | a created, cloned, forked or archived session is one more row with that parent and forked-from message and copies of those rows, and nothing else changes |
| CompactionReads.EverythingSurvivesIff | internal/daemon/chat.go:640-706 | every message of the session is at its place in the archive or still in the history, if and only if none was saved after the second read |
| CompactionReads.KeptIdsIff | internal/daemon/compaction_records.go:95-113 | the kept lines keep their ids if and only if no message was saved between the two reads |
| CompactionReads.MessageBetweenShiftsIds | internal/daemon/chat.go:645-694 | concrete tables and an arrival between the reads after which the kept line has another message's id |
| CompactionReads.LateMessageVanishes | internal/daemon/chat.go:694-703 | concrete tables and an arrival after the second read that is then neither archived nor in the history |
| CompactionReads.GivenBackIff | internal/daemon/chat.go:640-706 | the tables still give back everything ever saved if and only if no message was saved from the first read on |
| CompactionReads.CompactionShows | internal/daemon/chat.go:599-628 | the summary stands before the last lines of the first read, these have the last ids of the second read, and the archive holds the second read |
| CompactionReads.CompactionKept | internal/daemon/chat.go:562-636 | the record tells how many messages went and stayed, the first kept message as the history then has it, and the archive; the archive is a session under the compacted one with copies of the second read, tool columns and all; replacement rows lose them, and no other session changes |
| CompactionOverlap.OverlapGivenBackIff | internal/daemon/chat.go:640-706 | two overlapping compactions of a session that gave everything back before, with nothing saved meanwhile: how many lines are given back too many, and that everything is given back right if and only if the second read came after the first commit and twice the kept messages and two were there |
| SessionDb.CutoffIsPrefix | internal/daemon/sessions.go:246-251 | the row-id cutoff selects the session's history up to and including the chosen message |
| SessionService.SessionManager.Create | internal/daemon/sessions.go:53-80 | a session of its own, its own root |
| SessionService.SessionManager.SaveMessage | internal/daemon/chat.go:553-560 | one message more in its session's history and in what was ever saved there, with the given role, content and tool columns; nothing else changes |
| SessionService.SessionManager.CreateChild | internal/daemon/sessions.go:218-295 | a child with the parent's root, the given origin and copies of the selected rows, tool columns and all, or nothing |
| SessionService.SessionManager.Clone | internal/daemon/sessions.go:155-161 | a child with copies of all messages of the source, tool columns and all, and no forked-from message |
| SessionService.SessionManager.Fork | internal/daemon/sessions.go:164-177 | exists exactly if the message does; the child records it as its origin, and its messages are copies of the source's prefix through it |
| SessionService.SessionManager.ListTree | internal/daemon/sessions.go:180-216 | exactly the sessions whose parent chain reaches the same root, each once and in the order of their rows |
| SessionService.SessionManager.CompactHistoryWithArchive | internal/daemon/chat.go:562-636 | archive, replacement rows and record in one transaction, or nothing |
| SessionService.SessionManager.ListMessages | internal/daemon/sessions.go:127-152 | the rows of a known session in order |
| SessionService.SessionManager.Compact | internal/daemon/chat.go:640-706 | with messages arriving between its two reads and before its transaction: happens exactly if the first read has more than the kept messages and one; what the tables then show, down to the record's counts and its first kept message; which arrivals make messages vanish, shift ids or spoil the rebuilding, each if and only if |

## Left out

- The file system: locks, permissions, fsync and symlinks are abstract atomic writes and abstract leases; a released lock is released.
- JSON, hashing and time formatting: encodings are functions of which only the properties stated in the two `Codec` types are used.
- SQLite: tables are maps and sequences, transactions are atomic, and a failing commit applied nothing.
- gRPC, the TUI, the command line, the agent transport and process launch: a runner starts or does not, and a prompt is answered, fails or is canceled.
- Goroutine scheduling inside one locked region: a region under a mutex is one step of the machines.
- A provider's type, model, base URL, settings and token limit: a row is its alias, its secret's name and its default flag.
- The other columns of a session (name, status, working directory, provider, model, reason and branch summary) and a compaction record's summary and reason, which are copied or given; the times of prompts and turns, an appended prompt without an id or with a status of its own, and the stop reasons.
- Expiry of operations: the journal keeps its rows, so reuse of an expired operation id is not modelled.
- Whole-record `Upsert`, the legacy pending prompt and its `MarkPendingCanceled`, and the cancellation files, which only mirror the session records.
- Status queries of the background manager (`Get`, `List`) and the map of terminal results they read.
- Liveness: that a blocked thread is eventually scheduled, that an agent answers, that a watch with no end ends.
- Leaks of secrets while the daemon runs: a provider removed while its operation is still applied can leave its secret until the next startup, which queues it.
- BackgroundManager.BackgroundManager.ResumeAll: methods run to their end, so an unreadable audit log during Resume is only in the interleaving machine, as a step of its own; nothing is active when it starts, as internal/daemon/service.go:254-280 calls it before it serves requests.
- BackgroundManager.BackgroundManager.Start: names are given without surrounding blanks, and the session store and the profile resolver answer the same throughout one call, so a cancellation or a change of trust between persisting and launching is not followed here; recovery of a canceled session's queue is SessionStore's.
- BackgroundManager.BackgroundManager.Stop: a worker that ends while Stop is persisting, and a failing Stop whose worker then persists itself, are only in the interleaving machine.
- BackgroundManager.BackgroundManager.WorkerDone: whether a session cancellation arrived is part of how the worker ended, and its admission lock does not fail.
- BackgroundManager.BackgroundManager.Obstacle: the session store and the profile resolver answer the same throughout one Resume.
- BackgroundTheorems.HandoffIsNeverLost: assumes, as the machine does, that Stop's read of the policy succeeds; the code's failing read returns without a handoff.
- DrainWatch.DrainTurn: every store write is confirmed; failing and unconfirmed writes are in DrainRace.
- DrainWatch.DrainLoop: every store write is confirmed; failing and unconfirmed writes are in DrainRace.
- DrainWatch.DrainQueueOwned: every store write is confirmed; a failing one ends the cycle with counters that need not balance.
- DrainWatch.WatchQueue: every store write is confirmed and no other process touches the store; the interleavings are in DrainRace.
- BackgroundProgress.EveryThreadMovesOrAwaitsAMover: launch admission that another process holds is taken to be given back.
- ProviderManager.ProviderManager.ReconcileStartup: the deletion of expired operations before it is not modelled.
- BackgroundManager.BackgroundManager.ReconcileTerminalAudit: the audit log is readable; an unreadable one is in the interleaving machine.
- DrainRace.OtherStepKeeps: appended prompts get fresh ids, and a lifecycle update does not itself carry a latched status.
- SessionService.SessionManager.Compact: the provider's summary text is a parameter; two compactions of one session overlap only in CompactionOverlap, where both keep as many messages and nothing is saved meanwhile.
