# Agent Center: verified models

This project models three parts of Agent Center in Dafny 4.11 and proves what their code keeps, over
every input, every run or every interleaving. `dafny verify dfyconfig.toml` checks all of it.

**The AI Runtime catalog** (`internal/airuntime`). `Json` is the redaction of secrets in JSON trees
and the putting back of hidden values; `Text`, `Keyed` are trimming, normalization, key order and
merging; `ImportPlan` is the planner for the three import strategies, with the loops that compute it;
`ImportLaws`, `ImportIdempotence`, `ImportOwnExport`, `ImportRuns` and `ImportReport` prove idempotence,
the round trip of a catalog's own export, what sequences of written imports keep, and that the report
tells what happens; `ExportFilter` is the partial export.

**The supervisor's event log and its RPC** (`internal/agentsupervisor`). `Framing` is the wire format,
`EventLog` the log file with its two cursors, inode by inode, `Rpc` the request/response protocol byte
by byte over connections that may be cut anywhere, `Delivery` the delivery of the log to clients that
crash and come back, `Pump` the client's loop over the log's lines.

**The executor control plane** (`internal/agentruntime`). Each protocol is a state machine with one
step for each critical section, interleaved arbitrarily, and beside it the objects whose methods
those critical sections are: `ForkGate` (at most one live executor for a task), `PruneGuard`,
`SourceGate` (repository sources and the tasks that wait for them), `Lifecycle` (admission and stop),
`Center`, `Completion` (what an executor has come to), `Recovery` (mid-life recovery and its budgets), `BootReconcile` (recovery at boot, joined to
`ForkGate`), `PendingJudgments` (nudges), `ApiResume` (backoff and the resume slot) and `CodexLoop`
(one process per turn).

State that the Go code updates in place is a class whose methods are proved against functions of the
old state: those that the state machines use as steps, and for `Rpc.AttachClient` the framing of its
streams. What a lemma says of a run holds of every reachable state.

## Where the code and its promises part

The models follow the code. These lemmas say exactly when a promise of the code's comments or names
holds, or give an input on which it does not:

- An ack whose append handle cannot be re-opened after the rename leaves the cursors and the file
  apart (`EventLog.StepIsFaithfulExactlyWhen`).
- An ack left behind on an abandoned connection can truncate a restarted client
  (`Delivery.TruncatedExactlyWhenAnAckIsAhead`).
- A read without a limit cannot be answered once the reader is more than 12 MiB behind
  (`Delivery.UnlimitedReadStalls`), and a line longer than the pump's read is torn
  (`Pump.LongLineIsTorn`).
- The one-executor rule holds exactly under the three conditions of
  `BootReconcile.OneLiveFromBootExactlyWhen`. Each can fail: the pool refuses the adoption of a
  survivor; two executors died on one task (`BootReconcile.TwoDeadAreBothRelaunched`); or a process
  runs that the record does not show. A relaunch in place does not write the new pid to the record,
  so a restart of the runtime doubles the executor
  (`BootReconcile.RelaunchedIsDoubledAtTheNextBoot`), and a terminal status without an output is
  believed while the process is still there (`BootReconcile.ExitingIsDoubled`).
- A judgment recorded while a sweep holds the older one is nudged early
  (`PendingJudgments.DisturbedNudgeIsEarly`, and exactly when in `PendingJudgments.ScheduleKeptExactlyWhen`).
- A result recorded between a sweep's read of the center and its snapshot can be dropped unjudged
  (`PendingJudgments.FreshResultIsDropped`, exactly when in
  `PendingJudgments.DroppedIsJudgedExactlyWhen`).
- The backoff overflows where no doubling reaches the cap within 64 bits
  (`ApiResume.BackoffExactlyWhen`).
- A thread id that codex changes is not persisted again (`CodexLoop.LineKeepsDurableExactlyWhen`).

## Assumptions

- Pool, monitor, materializer, planner probe, center and JSON-schema engine are parameters: what they
  answer is arbitrary, except that, once boot is over, the monitor reports an executor as terminal
  only when the process under the pid that the runtime holds is gone (reaped, without an answer or
  killed), that a spawned executor's id is new, and that its input file stays readable while it is
  registered. What boot finds on disk, and which processes run beside it, is arbitrary.
- The watchdog's ticks do not overlap, and boot is over before fork commands are served.
- Clocks do not run backwards within a run of `PendingJudgments`.
- Lists and maps that Go keeps as nil or empty are not told apart; stored catalogs hold non-nil values.

## Model

| member | source | states |
|---|---|---|
| Json.RedactHidesExactlySecrets | internal/airuntime/bulk.go:611-647 | two JSON trees export alike exactly when they agree on everything that is not under a sensitive key, at every depth of objects and arrays |
| Json.UnresolvedIffNotResolves | internal/airuntime/bulk.go:481-529 | putting hidden values back reports nothing exactly when every placeholder, wherever it stands, finds a value at its place in the existing tree |
| Json.ResolvesAgainstNothing | internal/airuntime/bulk.go:527-529 | against nothing a tree resolves exactly when it holds no placeholder: how a new entry's placeholders are rejected |
| Json.RestoreIsIdempotent | internal/airuntime/bulk.go:481-525 | what resolved once resolves again against what was then stored, and restoring it again changes nothing |
| Json.RestoreStoresNoPlaceholder | internal/airuntime/bulk.go:481-525 | a tree restored without complaint holds no placeholder, if the existing tree holds none |
| Json.RestoreUndoesRedact | internal/airuntime/bulk.go:481-525 | a redacted tree can be put back over its original exactly when the original shows no placeholder text and has no null directly under a sensitive key, and then the very original comes back |
| Json.PreserveRedactedMap | internal/airuntime/bulk.go:481-497 | the loop over an object's fields computes the restored fields and exactly the unresolved paths |
| Json.PreserveRedactedValue | internal/airuntime/bulk.go:499-525 | the recursive descent through objects and arrays computes the restored value and exactly the unresolved paths |
| Text.NormalizeStrings | internal/airuntime/types.go:123-135 | the loop trims every string and fails exactly on a blank or a repeated one |
| Keyed.IndexByKey | internal/airuntime/bulk.go:572-585 | the index over a list finds for every key the last entry under it |
| Keyed.Merge | internal/airuntime/bulk.go:586-609 | laying changes over a list and sorting by key yields the listing of the overriding lookup |
| Keyed.MergedLookup | internal/airuntime/bulk.go:586-609 | looking a key up in the merged, sorted list is looking it up first in the changes and then in the base; the list is in key order |
| Keyed.ByKeyUndoesListing | internal/airuntime/bulk.go:586-609 | sorting a lookup into a list and indexing the list again loses and adds nothing |
| ImportPlan.DecideCli | internal/airuntime/bulk.go:280-315 | the body of the CLI loop decides create, update or unchanged, what is written and what is wrong, for every strategy |
| ImportPlan.DecideModel | internal/airuntime/bulk.go:319-361 | the body of the model loop, with hidden parameters put back from the existing entry |
| ImportPlan.PlanImport | internal/airuntime/bulk.go:271-389 | the whole planner: the two passes with duplicate keys reported, the disabling of unmentioned entries under replace, and the parameter check of every model against the catalog that would result |
| ImportPlan.ValidateParameters | internal/airuntime/bulk.go:438-450 | the loop over a model's CLI keys finds the first complaint among the CLIs that exist |
| ImportLaws.AssignIds | internal/airuntime/bulk.go:531-541 | every written entry gets an id where it had none, and nothing else of it changes |
| ImportLaws.PassIsCleanExactlyWhen | internal/airuntime/bulk.go:278-362 | a pass over one list finds nothing wrong exactly when no key repeats and no entry is at fault |
| ImportLaws.ParameterCheckIgnoresIds | internal/airuntime/bulk.go:381-386 | that no model's parameters are at fault does not depend on the ids filled in afterwards |
| ImportIdempotence.ImportIsIdempotent | internal/airuntime/bulk.go:271-389 | for each strategy: after a document was imported without complaint, planning it again on the catalog that results writes nothing, complains of nothing and reports every entry unchanged |
| ImportOwnExport.OwnExportChangesNothingExactlyWhen | internal/airuntime/bulk.go:391-402 | planning a catalog's own export against it writes nothing and complains of nothing exactly when every key and name is trimmed, no schema is empty, no model lacks a display name that it has a model key for, all lists are trimmed or beyond normalizing, the parameters can be exported, and they satisfy their schemas; under create_only trimmed keys and valid parameters are enough; then every entry is unchanged |
| ImportOwnExport.NormalCliExactlyWhen | internal/airuntime/bulk.go:280-291 | normalizing an exported CLI changes nothing exactly when its fields are in that form |
| ImportOwnExport.NormalModelExactlyWhen | internal/airuntime/bulk.go:319-330 | the same for a model, together with the condition under which its hidden parameters come back |
| ImportRuns.UpsertsAreOverrides | internal/airuntime/sqlite/repository.go:20-56 | writing a mutation row by row, with conflicts on the key, leaves exactly the entries laid over the table, because they keep the identity of the rows they replace |
| ImportRuns.PersistedIsTheCandidate | internal/airuntime/bulk.go:209-254 | what the database holds after an accepted import is the candidate catalog that the audit record shows, one revision on |
| ImportRuns.WrittenImportKeeps | internal/airuntime/bulk.go:278-379 | one accepted import: ids and creation times stay, merge leaves unmentioned entries alone, create_only existing ones, and after replace every enabled key is in the document |
| ImportRuns.AllUnchangedWritesNothing | internal/airuntime/bulk.go:236-238 | an accepted import whose report is unchanged throughout has an empty mutation, so skipping the write loses nothing |
| ImportReport.CliReportIsTrue | internal/airuntime/bulk.go:278-316 | for every CLI of an accepted document the report says create, update or unchanged exactly when that happens to it, and afterwards the catalog says of it what the normalized document says; create_only leaves existing ones alone |
| ImportReport.ModelReportIsTrue | internal/airuntime/bulk.go:317-362 | the same for every model, with the hidden parameters that the catalog held |
| ImportRuns.ImportKeeps | internal/airuntime/bulk.go:209-254 | one import, refused, without effect or written: the catalog stays sound, its revision grows only with a write, and an accepted one leaves what its strategy allows |
| ImportRuns.RunStaysSound | internal/airuntime/bulk.go:481-541 | over any sequence of imports from a sound catalog no placeholder is ever stored and every entry has an id and a creation time |
| ImportRuns.RunKeepsIdentities | internal/airuntime/bulk.go:586-609 | over any sequence of imports no entry disappears, ids, system marks and creation times stay, and the catalog changes only together with its revision |
| ImportRuns.PreviewIsWhatIsApplied | internal/airuntime/bulk.go:209-238 | an import accepted because the revision is still the previewed one meets exactly the plan that was previewed |
| ExportFilter.FilterExport | internal/airuntime/bulk.go:707-772 | a partial export succeeds exactly when something is selected and every wanted or needed key exists, and then holds the entries under those keys |
| ExportFilter.TakenExactly | internal/airuntime/bulk.go:752-767 | every wanted key is taken once and only those, and what is left over is exactly what the catalog does not have |
| ExportFilter.WithDependenciesStandsAlone | internal/airuntime/bulk.go:742-750 | a partial export with dependencies holds every CLI that one of its models names |
| Framing.FrontOfFrame | internal/agentsupervisor/protocol.go:69-103 | bytes that begin with a frame decode to its message, and no proper prefix of a frame decodes |
| Framing.MessageComesFromItsFrame | internal/agentsupervisor/protocol.go:89-103 | only a frame decodes to a message |
| Framing.CutStreamDecodes | internal/agentsupervisor/protocol.go:69-103 | a stream of frames cut at any byte decodes to exactly the messages that are whole, in order |
| Framing.OversizeIsSeenInTheHeader | internal/agentsupervisor/protocol.go:95-97 | a frame is refused as oversize on its four header bytes alone |
| Framing.Stream.WriteFrame | internal/agentsupervisor/protocol.go:69-82 | writing pushes the whole frame or a prefix of it, and nothing at all when the message is too long |
| Framing.Stream.ReadFrame | internal/agentsupervisor/protocol.go:89-103 | reading consumes exactly one frame; of an oversize one only the header |
| EventLog.OpenedIsFaithful | internal/agentsupervisor/supervisor.go:222-233 | the log starts faithful to what is on disk exactly when the file's size could be read or the file is empty |
| EventLog.StepIsFaithfulExactlyWhen | internal/agentsupervisor/supervisor.go:455-587 | every append (short writes too), ack, failed ack and the exit keep the file equal to the stream between the cursors, except exactly the ack whose append handle cannot be re-opened after the rename |
| EventLog.RunIsFaithfulExactlyWhen | internal/agentsupervisor/supervisor.go:455-587 | the same over whole runs: faithful throughout exactly when no ack was stranded that way |
| EventLog.CursorsOnlyGrow | internal/agentsupervisor/supervisor.go:136-150 | both cursors only grow, and stand still once the log is closed |
| EventLog.StreamIsTheLines | internal/agentsupervisor/supervisor.go:295-325 | the stream is the non-blank lines handed to the drain, each with its newline, all of them while it runs and a prefix once it stopped |
| EventLog.ReadReturnsTheStream | internal/agentsupervisor/supervisor.go:478-518 | a read is refused exactly below the base, returns exactly the stream from the clamped offset, is empty only when caught up, and reports the end exactly there |
| EventLog.Supervisor.AppendEvents | internal/agentsupervisor/supervisor.go:455-464 | an append adds the bytes the file took and moves the offset by as many, or is refused after the exit |
| EventLog.Supervisor.DrainLine | internal/agentsupervisor/supervisor.go:298-319 | one round of the drain loop: blank lines are skipped, a failed append ends the loop |
| EventLog.Supervisor.ReadAt | internal/agentsupervisor/supervisor.go:478-518 | computes the reply of a read, including the error at an unexpected end of file |
| EventLog.Supervisor.Ack | internal/agentsupervisor/supervisor.go:531-587 | clamps, rewrites the tail to a new inode, renames it over the log, swaps the handle and moves the base, in this order and with every failure |
| EventLog.Supervisor.FireExit | internal/agentsupervisor/supervisor.go:329-347 | closes the log and announces the exit once, however often it is called |
| Rpc.StepKeepsInStep | internal/agentsupervisor/client.go:71-111 | every step at either end, with bytes moved in any portions, timeouts, broken pipes and server crashes, keeps a connection's two directions in step |
| Rpc.EveryResponseAnswersItsRequest | internal/agentsupervisor/client.go:71-111 | over every run with reconnects, the server handles each connection's requests in call order, each at most once, and whatever a call returns is the server's answer to that call |
| Rpc.AbandonedForGood | internal/agentsupervisor/client.go:102-111 | a connection on which a deadline passed carries no further request |
| Rpc.OversizeNeverArrives | internal/agentsupervisor/server.go:137-162 | an oversize frame, after which a connection would be out of step without being given up, never reaches either end |
| Rpc.CompletedFrameIsTheAnswer | internal/agentsupervisor/server.go:137-162 | the frame that a client completes is the answer to its own request and nothing is left behind it |
| Rpc.AttachClient.RoundTrip | internal/agentsupervisor/client.go:71-111 | one call writes its request, consumes exactly one response, and gives the connection up exactly when a deadline stopped it |
| Delivery.WhatIsReceivedIsTheStream | internal/agentsupervisor/client.go:148-165 | in every run a client holds exactly the stream between where it started and where it stands: no gap, repeat or reorder |
| Delivery.TruncatedExactlyWhenAnAckIsAhead | internal/agentsupervisor/supervisor.go:482-484 | a client at or above the base can be told at some later point that its offset is gone exactly when an ack that can still be executed goes beyond where it stands |
| Delivery.FirstClientIsNeverTruncated | internal/agentsupervisor/client.go:113-178 | a client that starts at the base with no acks left behind by others, and acks only what it has read, is never truncated |
| Delivery.RestartRedeliversTheUnacked | internal/agentsupervisor/server.go:186-230 | after a crash the next client starts at the log's base, so exactly what was not acked is delivered again; that is within what the crashed client had received, and both together hold the stream without a gap |
| Delivery.ReadAdvancesExactlyWhen | internal/agentsupervisor/server.go:213-222 | a read moves the client on exactly when there is more, nothing fails and the encoded response fits in a frame |
| Delivery.ExplicitLimitFits | internal/agentsupervisor/protocol.go:58-61 | with an explicit limit up to 12 MiB less 64 bytes the encoded response fits at every 64-bit offset |
| Delivery.UnlimitedReadStalls | internal/agentsupervisor/supervisor.go:488-490 | without a limit a client more than 12 MiB behind can never be answered |
| Pump.DispatchLines | internal/workerdaemon/supervisor_session.go:279-305 | hands on exactly the complete lines of a chunk, trimmed and without blanks, and counts exactly the bytes of all of them |
| Pump.RoundIsWholeExactlyWhen | internal/workerdaemon/supervisor_session.go:209-262 | a round deals with whole lines and stops at the beginning of a line exactly when the next line fits in one read |
| Pump.LongLineIsTorn | internal/workerdaemon/supervisor_session.go:258-262 | a line that does not fit in one read is skipped in part, and what is left of it is handed on as if it were a line |
| Pump.PumpIsWholeExactlyWhen | internal/workerdaemon/supervisor_session.go:193-271 | however the log grows line by line and whichever reads fail, the pump always stands at the beginning of a line with exactly the lines before it handed on, exactly when every line with its newline fits in one read |
| ForkGate.StepKeepsInv | internal/agentruntime/executor_runtime.go:373-451 | every critical section of a fork command, a drain or the watchdog keeps the inductive invariant from which at most one live executor per task follows |
| ForkGate.OneLiveExecutorExactlyWhen | internal/agentruntime/executor_runtime.go:503-600 | over every interleaving of fork commands, drains, polls and in-place relaunches after boot each task has at most one live executor, exactly when boot registered every live executor, under the pid of its one process, and no two for one task |
| ForkGate.StrayCanBeDoubled | internal/agentruntime/executor/monitor.go:341-375 | a process under a pid that the runtime does not hold is not seen by a poll, and a second one is started beside it |
| ForkGate.UnregisteredCanBeDoubled | internal/agentruntime/executor_runtime.go:940-943 | a live executor that nobody registered does not stop a second one from being forked |
| ForkGate.TwoOrphansCanBothLive | internal/agentruntime/executor_runtime.go:730-744 | two registered executors of one task can both be relaunched |
| ForkGate.ForkState.BeginTaskFork | internal/agentruntime/executor_runtime.go:373-387 | admits a task exactly when it is neither tracked nor being forked, and names the executor that already serves it |
| ForkGate.ForkState.EndTaskFork | internal/agentruntime/executor_runtime.go:389-393 | releases the gate for this task only |
| ForkGate.ForkState.TrackTaskExecutor | internal/agentruntime/executor_runtime.go:415-425 | binds the task to its executor |
| ForkGate.ForkState.UntrackTaskExecutor | internal/agentruntime/executor_runtime.go:427-433 | removes the binding only if it is still the executor's own |
| ForkGate.ForkState.ExecutorForTask | internal/agentruntime/executor_runtime.go:437-450 | finds an executor exactly when the registry, the orphans or the pool have one for the task |
| ForkGate.Engine.BeginRecovery | internal/agentruntime/executor_engine.go:138-149 | grants the claim on an executor to exactly one of its claimants |
| ForkGate.Engine.EndRecovery | internal/agentruntime/executor_engine.go:153-157 | drops the claim |
| ForkGate.Engine.RecordOrphan | internal/agentruntime/executor_engine.go:200-207 | registers an executor for polling |
| ForkGate.Engine.DropOrphan | internal/agentruntime/executor_engine.go:232-236 | stops polling it |
| PruneGuard.MarksThenPoolNeverMisses | internal/agentruntime/executor_runtime.go:639-652 | reading the preparing marks first and the pool later never misses an executor that was live throughout |
| PruneGuard.PoolThenMarksCanMiss | internal/agentruntime/executor_runtime.go:658-671 | the opposite order can miss one |
| SourceGate.StepKeepsInv | internal/agentruntime/source_prewarm.go:207-379 | every critical section of the source gate, also while the runtime stops, keeps its invariant |
| SourceGate.OneEpisodeAndNoOrphanedWaiter | internal/agentruntime/source_prewarm.go:207-256 | a repository has at most one episode at work, and until admission closes no task waits without one |
| SourceGate.EveryBatchIsServed | internal/agentruntime/source_prewarm.go:322-379 | each drained task is re-driven if a usable source was left and failed loudly otherwise, once and in order, and none is skipped unless the runtime stops |
| SourceGate.NoTaskIsLost | internal/agentruntime/source_prewarm.go:207-379 | while the runtime is not stopping, a deferred task still waits with an episode at work or left the gate in a batch formed since |
| SourceGate.RedriveFindsTheSource | internal/agentruntime/source_prewarm.go:194-201 | over every run a re-drive finds exactly the source that the last episode to end for its repository left, whatever its age: its own episode's until another one ends; there is none before an episode has ended |
| SourceGate.SourceGate.FreshSource | internal/agentruntime/source_prewarm.go:169-180 | a source is served only within its freshness window |
| SourceGate.SourceGate.Defer | internal/agentruntime/source_prewarm.go:207-231 | a task joins the waiters, and its caller starts an episode exactly when none is in flight |
| SourceGate.SourceGate.RollBack | internal/agentruntime/source_prewarm.go:236-248 | a refused caller takes back its own task, in its own entry only |
| SourceGate.SourceGate.Finish | internal/agentruntime/source_prewarm.go:322-362 | publishes the fetched or the surviving source, takes all waiters, and drops an entry that has no source |
| SourceGate.Materialize | internal/agentruntime/source_prewarm.go:264-303 | the bounded retry of an episode returns the first success or stop, and gives up exactly when every attempt failed |
| Lifecycle.StepKeepsInv | internal/agentruntime/local_runtime.go:456-466 | the counters count the goroutines that hold tickets and those in each group |
| Lifecycle.CountersNeverUnderflow | internal/agentruntime/local_runtime.go:466 | no wait-group counter is taken below zero |
| Lifecycle.NoTicketAfterClose | internal/agentruntime/local_runtime.go:456-472 | once admission is closed no ticket is granted again |
| Lifecycle.NoTicketAfterCancel | internal/agentruntime/local_runtime.go:1538-1542 | whoever sees the lifecycle cancelled can rely on it that no ticket is granted any more |
| Lifecycle.StopQuiesces | internal/agentruntime/local_runtime.go:508-525 | once the tickets are down to zero after the close, every group is empty and nothing runs from then on |
| Lifecycle.GroupsFirstIsNotEnough | internal/agentruntime/local_runtime.go:508-525 | waiting for a group before the tickets would not be enough |
| Lifecycle.Runtime.BeginRuntimeWork | internal/agentruntime/local_runtime.go:456-464 | grants a ticket exactly while admission is open, as the step of the state machine |
| Lifecycle.Runtime.EndRuntimeWork | internal/agentruntime/local_runtime.go:466 | returns a ticket, which is never one too many |
| Lifecycle.Runtime.CloseRuntimeAdmission | internal/agentruntime/local_runtime.go:468-472 | closes admission and changes nothing else |
| Lifecycle.Runtime.Stop | internal/agentruntime/local_runtime.go:1538-1542 | closes admission and then cancels the lifecycle; the other order would break the invariant in between |
| Center.SpellingMakesNoDifference | internal/agentruntime/boot_reconcile.go:693-700 | how a status is spelled, in case or surrounding space, makes no difference |
| Recovery.RecoveredExactlyWhen | internal/agentruntime/executor_point_recovery.go:48-216 | an executor is brought back exactly when it died or stalled without a verdict of its own, nothing is stopping, it was not fused, the center confirms its task, and the budget for this cause is not spent |
| Recovery.ResumedExactlyWhen | internal/agentruntime/orchestrator/recovery.go:120-165 | a conversation is resumed exactly after a crash with a resumable session in a surviving workspace; a stall never resumes |
| Recovery.GrantsAreBounded | internal/agentruntime/executor_engine.go:80-108 | between two clears of a task's budget at most three recoveries are granted for crashes and one for stalls, over any number of executors and triggers |
| Recovery.EveryRecoveryHasItsGrant | internal/agentruntime/executor_point_recovery.go:156-216 | every recovery that is enacted has a grant of its own, for its task and cause |
| Recovery.RefusedExactlyWhenSpent | internal/agentruntime/executor_point_recovery.go:156-165 | a confirmed death is finalized and escalated exactly when the grants for its cause are used up |
| Recovery.OnlyConfirmedDeathsRecover | internal/agentruntime/executor_point_recovery.go:91-153 | no enacted recovery is of a fused executor, of one with a verdict of its own, or of a task not confirmed |
| Recovery.PointRecovery.TryConsumeRecoverBudget | internal/agentruntime/executor_engine.go:89-109 | grants exactly while the budget for the cause is not spent, and counts the grant |
| Recovery.PointRecovery.ClearRecoverBudget | internal/agentruntime/executor_engine.go:113-120 | forgets a task's counts |
| Recovery.PointRecovery.ReconcileOne | internal/agentruntime/executor_point_recovery.go:48-216 | one trigger: without the claim nothing happens; with it the ruling, the budgets and the lease follow the decision, and the claim is released |
| Completion.DeadExactlyWhen | internal/agentruntime/executor/completion.go:103-178 | who was reaped has died without a verdict exactly when there is no output file, whatever the exit code; who was found on disk exactly when, besides, the status file claims an end or nothing answers at the recorded pid |
| Completion.SucceededExactlyWhen | internal/agentruntime/executor/completion.go:103-178 | a success needs a success in the output file and, where the exit was seen, a clean exit; running is only what answers and has left no sign of an end |
| Completion.DeathTestsAgree | internal/agentruntime/boot_reconcile.go:181-186 | nothing is classified as an undelivered result, and boot and mid-life recovery agree on what a death is for everything that is classified |
| BootReconcile.KilledExactlyWhen | internal/agentruntime/boot_reconcile.go:609-641 | whoever answers at the recorded pid of an executor without a sign of an end is killed exactly on positive evidence from the center |
| BootReconcile.RecoveredExactlyWhen | internal/agentruntime/boot_reconcile.go:129-175 | recovery is tried exactly for a task in flight whose executor left no output and claims an end or does not answer |
| BootReconcile.WrittenBackExactlyWhen | internal/agentruntime/boot_reconcile.go:129-179 | what is reported to the center, for every scanned executor: an output exactly if its task is in the confirmed in-flight set, and without one only what left no sign of an end and does not answer, while the set or the task is unknown |
| BootReconcile.FateOfTheLiving | internal/agentruntime/boot_reconcile.go:136-146 | a live executor is left alone exactly if it has no task, asked about exactly if its task is known not to be in flight, and adopted otherwise |
| BootReconcile.InflightTaskSet | internal/agentruntime/boot_reconcile.go:394-431 | the set holds exactly the listed tasks that are neither settled nor parked |
| BootReconcile.Boot.AdoptOrphan | internal/agentruntime/executor_engine.go:181-198 | records an orphan only once it has a slot |
| BootReconcile.Boot.VerifyThenCancel | internal/agentruntime/boot_reconcile.go:609-641 | cancels exactly on evidence, keeps and registers a live executor otherwise |
| BootReconcile.Boot.ReconcileOne | internal/agentruntime/boot_reconcile.go:276-318 | one executor gets exactly one outcome, in one counter |
| BootReconcile.Boot.ReconcileExecutors | internal/agentruntime/boot_reconcile.go:254-325 | the six counters sum to the number scanned; orphans, kills, write-backs, sealed artifacts and relaunches are exactly those of the outcomes |
| BootReconcile.OneLiveFromBootExactlyWhen | internal/agentruntime/boot_reconcile.go:254-325 | from the disk through boot to every later interleaving: no task ever has two live executors exactly when no executor of a task ran in a process that its record does not name or beside a file that claims its end, no adoption of a survivor failed, and no two registered executors share a task |
| BootReconcile.TwoDeadAreBothRelaunched | internal/agentruntime/boot_reconcile.go:437-461 | two executors that died on the same task are both relaunched |
| BootReconcile.RelaunchedIsDoubledAtTheNextBoot | internal/agentruntime/boot_reconcile.go:522-575 | a relaunch starts a process that the record does not name, so if the runtime goes down meanwhile the next boot starts a second one beside it |
| BootReconcile.ExitingIsDoubled | internal/agentruntime/executor/recovery.go:211-238 | a process that has written a failed status without an output, and is still there when boot looks, gets a second one beside it |
| PendingJudgments.LeavesExactlyWhen | internal/agentruntime/pending_judgment.go:218-252 | an entry leaves the store exactly when a sweep whose read succeeded does not show its task running |
| PendingJudgments.NudgesInTime | internal/agentruntime/pending_judgment.go:253-272 | no record gets more than three nudges, and the k-th is never earlier than k times two minutes after the injection, in every run where no result is recorded for a task that a sweep under way still has to deal with |
| PendingJudgments.NudgeInTimeExactlyWhen | internal/agentruntime/pending_judgment.go:253-272 | a nudge is in time exactly when the entry that is nudged is due for one |
| PendingJudgments.ScheduleKeptExactlyWhen | internal/agentruntime/pending_judgment.go:245-273 | over any run every entry keeps its schedule throughout exactly when each decision carried out was still due for the entry that the store held by then |
| PendingJudgments.RestartsAreFarApart | internal/agentruntime/pending_judgment.go:259-265 | two restarts for a task are at least eight minutes apart with exactly three nudges in between |
| PendingJudgments.SameRecordExactlyWhen | internal/agentruntime/pending_judgment.go:68-76 | over any run what the store holds for a task is of the record it held earlier exactly when nothing was recorded for the task in between |
| PendingJudgments.DroppedIsJudgedExactlyWhen | internal/agentruntime/pending_judgment.go:227-249 | over any run what a sweep drops is of the record that the store held when the center was read, and did not show the task running, exactly when nothing was recorded for the task since |
| PendingJudgments.FreshResultIsDropped | internal/agentruntime/pending_judgment.go:227-249 | a result recorded between the read of the center and the snapshot can be dropped unjudged |
| PendingJudgments.EscalatedAtMostOnce | internal/agentruntime/pending_judgment.go:257-267 | over any run without the fatal hook no record is escalated twice |
| PendingJudgments.EscalatedIsSilent | internal/agentruntime/pending_judgment.go:250-252 | over any run the entry of an escalated record stays as it is for as long as the store holds it, and no sweep decides to nudge, escalate or restart for it |
| PendingJudgments.DisturbedNudgeIsEarly | internal/agentruntime/pending_judgment.go:245-273 | a result recorded between a sweep's snapshot and its nudge is nudged and counted at once |
| PendingJudgments.PendingStore.Record | internal/agentruntime/pending_judgment.go:68-76 | recording starts the schedule anew |
| PendingJudgments.PendingStore.BumpNudge | internal/agentruntime/pending_judgment.go:92-103 | counts a nudge of the entry that the store holds by then |
| PendingJudgments.PendingStore.MarkEscalated | internal/agentruntime/pending_judgment.go:107-117 | marks the entry and keeps it |
| PendingJudgments.PendingStore.ResetForSupervisorRecovery | internal/agentruntime/pending_judgment.go:122-134 | rewinds clock, count and mark |
| PendingJudgments.PendingStore.Reconcile | internal/agentruntime/pending_judgment.go:218-274 | the sweep over its own snapshot: rate limit, no effect of a failed read, and for every entry of the store what becomes of it |
| ApiResume.DecideAPIErrorBackoff | internal/agentruntime/api_error.go:117-132 | the doubling loop in 64-bit arithmetic |
| ApiResume.BackoffExactlyWhen | internal/agentruntime/api_error.go:117-132 | the delay is the doubled base up to the cap, for every attempt, exactly when some doubling reaches the cap within 64 bits |
| ApiResume.SmallCapIsReached | internal/agentruntime/api_error.go:117-132 | which holds for every cap up to 2^62 with a base below 2^62 |
| ApiResume.DefaultsAreReached | internal/agentruntime/api_error.go:15-19 | with the default base of 2 s and cap of 60 s every attempt gets the doubled base up to the cap |
| ApiResume.BoundIsTight | internal/agentruntime/api_error.go:117-132 | with base and cap both 2^62 the second delay is negative |
| ApiResume.RateLimitDelay | internal/agentruntime/rate_limit.go:83-100 | the delay lies within the configured bounds whatever the provider says |
| ApiResume.RetriesAreBounded | internal/agentruntime/api_error.go:143-187 | at most maxRetries resumes are scheduled between resets, each with the delay of its number |
| ApiResume.TotalDelayIsBounded | internal/agentruntime/api_error.go:143-187 | between resets the planned waiting never exceeds maxRetries times the cap |
| ApiResume.InjectedOnceAndNotEarly | internal/agentruntime/rate_limit.go:137-160 | each scheduled slot is injected at most once, in order, and never early |
| ApiResume.SessionState.MaybeScheduleRateLimitResume | internal/agentruntime/rate_limit.go:104-132 | claims a rate-limited turn of a live work item and takes over the slot |
| ApiResume.SessionState.MaybeScheduleAPIErrorResume | internal/agentruntime/api_error.go:143-187 | claims a retryable turn within the budget, and resets budget and slot when it is spent |
| ApiResume.SessionState.OnTurnEnd | internal/agentruntime/events.go:130-168 | who claims the end of a turn, in which order, and when the budget is reset |
| ApiResume.SessionState.DrainResume | internal/agentruntime/rate_limit.go:137-160 | consumes a due slot, injecting only into a live session |
| CodexLoop.AtMostTwoProcesses | internal/agentruntime/codex_session.go:577-696 | a turn launches at most two processes, the second exactly after a stale resume |
| CodexLoop.SilentExactlyWhenCancelled | internal/agentruntime/codex_session.go:662-696 | a turn ends without a result event and without an error exactly when it was cancelled before a result could be supplied |
| CodexLoop.PersistsAreBounded | internal/agentruntime/codex_session.go:820-843 | persist calls never exceed the stale clears, and one more for a session that started without a thread |
| CodexLoop.ProcessesAreBounded | internal/agentruntime/codex_session.go:547-567 | a session launches at most twice as many processes as it takes messages |
| CodexLoop.LineKeepsDurableExactlyWhen | internal/agentruntime/codex_session.go:634-648 | the id on disk stays the session's exactly as long as no other thread id is announced |
| CodexLoop.TurnKeepsDurable | internal/agentruntime/codex_session.go:577-696 | if codex does not change a thread's id, the id on disk is the session's after every turn |
| CodexLoop.CodexSession.PersistThreadID | internal/agentruntime/codex_session.go:820-830 | persists the first id since the flag was cleared |
| CodexLoop.CodexSession.ClearStaleThreadID | internal/agentruntime/codex_session.go:832-843 | forgets the thread unless another was announced, and reports it stale |
| CodexLoop.CodexSession.Scan | internal/agentruntime/codex_session.go:619-661 | the scan loop: thread ids, result events, unreadable lines |
| CodexLoop.CodexSession.RunTurnAttempt | internal/agentruntime/codex_session.go:577-696 | one attempt with its retry, its synthesized result and its error |
| CodexLoop.CodexSession.FireExit | internal/agentruntime/codex_session.go:847-858 | announces the exit once |
| CodexLoop.CodexSession.RunLoop | internal/agentruntime/codex_session.go:547-567 | takes messages until the first error or cancellation, and exits exactly once, with the right verdict |

## Left out

- Rendering of import reports: sort order, de-duplication, path strings and error reasons; diagnostics are a set of structured values, so two complaints that render alike stay apart.
- Document kind and version checks, tokens, digests and signatures around an import, and the audit record itself.
- Lower-casing of non-ASCII letters in sensitive keys and in task statuses.
- JSON numbers are opaque leaves, and byte-level equality of JSON schemas stands for their equality as values.
- The seeding of default CLIs, single-entity edits, and the `created_by` and `version` columns of the model table.
- The re-validation at apply time uses its own clock reading; the model uses one time per import.
- The parsing of the event lines that the pump hands on, and its resync to the log's base after a truncated offset (`Delivery` says when a client meets one); the log grows by whole lines between its rounds.
- Supervisor process control (setsid, signals, stdin injection), socket files and permissions.
- `SpawnExecutor` beyond the gate: task checks, worktrees, prompts and the clone gate of `clone_prewarm.go`; a step that leaves before the launch stands for every early return.
- `launchExecutor` (the agent.work path) checks for an active executor before it takes the gate; the one-executor result is about `SpawnExecutor`.
- `liveExecIDs` is used at boot only; `PruneGuard.PoolThenMarksCanMiss` shows why nothing concurrent is claimed of it. The gap between the release of a slot and its re-adoption during a relaunch is outside `PruneGuard` too.
- Pool slots and the capacity limit; whether a slot is free is a parameter.
- The outcomes of fork commands by command id at the source gate: claims are by task id. The retry loops of a re-drive and of its status report.
- A persist of pending judgments that fails and is followed by a crash.
- Overflow of the rate-limit window's seconds in 64-bit nanoseconds.
- The texts by which API errors, rate limits and stale resumes are recognised, and the watchdog timers of a codex turn: their verdicts are parameters.
- Activity reports, logging, and the supervisor-session part of boot.
