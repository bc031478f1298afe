# The durable saga engine of the supervisor, in Dafny

The supervisor drives coding agents through an unreliable service (AO). Everything it intends or
learns is a row of a SQLite store: tasks, contracts, attempts, worker sessions, provisioning,
dispatch, stop and restore operations, execution budgets and a hash-chained audit log.
Coordinators make one external call between two transactions, and a recovery sweep classifies
whatever a crash left behind. No single function checks the guarantees that matter (one prompt
per attempt, no dispatch to a poisoned Pair, no orphaned kill): they follow from about thirty
transactions together. This project models those transactions and proves the guarantees as
inductive invariants over all of them.

How the model is laid out:

- `Domain`, `Tables`: a database is one value whose tables are maps from primary key to row. A
  transaction is atomic (`_txlock=immediate`, internal/store/config.go:62): it commits all its
  writes or leaves the value unchanged.
- `*Transactions`, `Workflow`: for each transaction a guard (`...Admits`: every check, unique
  index, CHECK and trigger of the source) and an effect (`...Commit`).
- `DispatchStore`, `StopStore`, `RestoreStore`, `ClearanceStore`, `LifecycleStore`: the same
  transactions statement by statement, as methods that update a working copy and install it;
  each is proved to commit exactly when the guard holds and with exactly that effect.
- `Invariants`: the inductive invariant `Inv`, and `SagaInv` for runs of production steps only.
  `Shapes` and the `*Proofs` modules show that each transaction keeps them.
- `Steps`, `Runs`, `History`: any transaction as one `Step`; a `Run` is any sequence of
  committed steps from an empty database, a `SagaRun` one without the edges of TransitionTask
  and AtomicTerminalTransition that no production code takes out of DISPATCHED and RUNNING.
- `Quarantine`, `StopTheorems`, `StopTargets`, `BudgetTheorems`, `RestoreTheorems`,
  `LineageTheorems`: what holds in every state of every run.
- `RowEffects`: the transactions told by tables, what becomes of each row at any step. `Admission`:
  for each transaction the few checks that decide in a reachable state. `RuntimeTheorems`,
  `EvidenceTheorems`, `Replays`: what settled stops, observations, clearances, resolutions and
  repeated calls amount to, in rows and events and without the functions above.
- `TimeoutOwner`, `ClearanceRecords`: what the check before a timeout kill and the clearance
  records amount to.
- `Protocol`: concurrent frames with one-use permits, the host's Pair and global scopes, the scan
  and crashes. `Coordinators`: Provision, Restore, Dispatch, Start and StartTimeout with a program
  counter each. `CoordinatorProofs`, `CoordinatorTheorems`, `CoordinatorReports`: they refine the
  protocol, and what that gives. `CoordinatorAnswers`: what they make of AO's answers.
- `Containment`: the paged re-read after an ambiguous send. `ScanSteps`, `SweepRest`,
  `SweepCompletion`, `Scanner`: the recovery sweep with arbitrary AO answers.
- `AuditChain`, `AuditRuns`: framing, hashing, append, verification and paging of the audit log.
  `HostAuthority`: admission scopes and the shutdown drain.

Nothing was executed: every statement here is one the Dafny verifier proves.

## What the proofs found

- **A TIMEOUT stop need not be due.** ReserveStopOperation compares a TIMEOUT stop with its
  immutable budget, but ClaimRestoreCleanupWithStop inserts its linked stop with whatever cause it
  is given, and dispatch.Coordinator.ClaimRestoreCleanup, an exported operator call, passes the
  cause on unchecked (internal/dispatch/coordinator.go:178-208).
  `BudgetTheorems.TimeoutsDueIff` gives the exact condition: every TIMEOUT stop of a run is due if
  and only if each restore cleanup given that cause names an attempt whose budget has ended.
  `BudgetTheorems.ForgedTimeoutHappens` is a run where one does not. Start and StartTimeout are
  safe: in a run of the host only another writer can break it
  (`CoordinatorTheorems.HostTimeoutsDueIff`).
- **An unknown delivery, even a cleared one, ends timeout kills on its Pair.**
  ValidateTimeoutEffectOwner refuses while any dispatch of the Pair has a resolution state
  (internal/store/stop_transactions.go:126-160), and nothing ever resets the one that
  RecordUnknownDelivery sets (internal/store/dispatch_transactions.go:513). By
  `TimeoutOwner.TimeoutOwnerExact` that is the only reason for which an unanswered TIMEOUT stop is
  refused; by `TimeoutOwner.UnknownDeliveryRefusesTimeouts` it holds in every continuation.
- **A linked maintenance stop can be stranded.** If a claimed restore observed a new generation
  that was never confirmed, ClaimRestoreCleanupWithStop may link a PAIR_MAINTENANCE stop of that
  generation. The session row still shows the old one, so CommitStopOutcome answers a lineage
  mismatch for every outcome; once the kill was accepted, ClassifyAbandonedStopAlive no longer
  applies either. `StopTargets.OutcomeCommits` is the exact condition, `StrandingHappens` a run,
  `StrandedForever` the consequence: the Pair stays locked. When the deadline of such a stop has
  passed no recovery sweep completes any more, on any Pair (`Scanner.Runner.Run`).
- **Physical clearance by a live stop leaves no record that a clearance can read.** appendStopAudit
  writes the generation under the key `target_generation`
  (internal/store/stop_transactions.go:162-181) while priorLineageClearanceTx reads
  `terminal_generation` (internal/store/clearance_transactions.go:235-239). The record is there
  (`ClearanceRecords.LiveClearanceRecorded`) and never found
  (`ClearanceRecords.OutcomeLeavesNoClearance`). It changes no verdict, because a confirmed stop
  needs no reconciliation (`ClearanceRecords.ConfirmedNeedsNoClearance`).
- **The length prefix of the audit framing wraps at 2^32 bytes.** For fields bounded by B bytes the
  preimage is injective if and only if B <= 2^32 (`AuditChain.InjectiveIffBelow`). Rows the store
  accepts are safe whatever the size of their details, since only that field is unbounded
  (`AuditChain.StoredInjective`).
- **Many guards never decide.** The source checks most rows again in each transaction.
  `Admission.CommitsIff` and `EvidenceTheorems` prove which checks decide in the states a run can
  reach; by the invariant the others follow, among them the restore, provisioning, attempt and
  numbering checks of an allocation, and the legacy budget binding.

Two pairs of clauses of `Scanner.Runner.Run` go together. With steady AO answers and clock, a
sweep completes only if `SweepCompletion.SweepPasses` holds of the database it starts from, and
after production steps, if nobody cancels it, whenever it does; a complete sweep ends in a
`SweepRest.Settled` database, and a sweep that starts in one changes nothing but the audit log.

## Model

| member | source | states |
|---|---|---|
| Runs.Always | internal/store/migrations.go:164-344 | after any number of transactions from an empty database, in any interleaving and with any crashes, the whole inductive invariant holds: attempt numbering, one lane per Pair, contract lineage, one dispatch and one budget per confirmed attempt, session/attempt/restore/stop consistency, the CHECKs of restore rows, and the uniqueness of restores, provisionings, live stops and linked stops |
| Runs.SagaAlways | internal/store/stop_transactions.go:434-501 | in runs of production steps, additionally, a task past DISPATCHED has a confirmed send on its current attempt and an in-flight live stop still owns a RUNNING task with an open, quarantined current attempt |
| StepProofs.StepKeeps | internal/store/atomic_transitions.go:27-316 | every admitted transaction of the store, whoever issues it, keeps the inductive invariant |
| SagaProofs.StepKeepsSaga | internal/store/stop_transactions.go:434-477 | every production transaction, including one that closes or moves an execution a stop could own, keeps the saga part: live stops keep their RUNNING task and quarantined attempt |
| History.StepHistory | internal/store/migrations.go:267-289 | no transaction rewrites history: lineages, bindings, budgets and stop targets are immutable, attempt numbers and dispatch stages only advance, closed attempts keep their end and disposition, stop rows follow the transition table, restore rows move only by updates the forward-only trigger accepts, and the audit log is append-only |
| RowEffects.StepRows | internal/store/migrations.go:164-344 | what any transaction does, told by tables: every row of every table and the events added to the log are exactly what a definition by row, with its own branches, says of the step, and every other row stays as it was |
| Admission.CommitsIff | internal/store/atomic_transitions.go:27-316 | in every state of every run each transaction, but for the two that weigh evidence, commits exactly when a few checks on its rows hold; the other guards of the source never decide |
| Admission.PrepareAdmission | internal/store/dispatch.go:138-392 | an allocation commits exactly for a READY task on a free lane, its latest contract, the current clean session and two fresh identifiers: the restore, provisioning, attempt and numbering checks never decide |
| Admission.ReserveAdmission | internal/store/stop_transactions.go:18-121 | a stop is reserved exactly on the current runtime of a Pair without a pending stop or unresolved restore, for the RUNNING current attempt without an earlier live stop, a closed quarantined attempt of a failed task, or no attempt; a TIMEOUT needs besides that budget's deadline, a clean session and an attempt that is not held |
| Admission.OutcomeAdmission | internal/store/stop_transactions.go:229-325 | a table by resolution: which stage, observation and instant each result demands of an in-flight stop, and which runtime rows it needs |
| Admission.AcceptAdmission | internal/store/stop_transactions.go:553-698 | a risk is accepted exactly by the first decision about a stop that is not in flight, confirmed or accepted, with evidence, naming each lineage once and only quarantined lineages of its Pair and session, for an absent target only that target, by the principal of the claim if the stop is linked |
| Replays.CommittedIsAnswered | internal/store/restore_transactions.go:365-515 | a hold, outage, hand-over, acceptance, resolution or classification that has committed is answered without a write when the same call is repeated |
| Replays.HoldsRepeat | internal/store/dispatch_transactions.go:18-79 | a hold or an outage is taken for a repetition only if the attempt already carries it and the send is at that stage, a hand-over only for the runtime the stop names, an interrupted restore only once it is confirmed and in flight or requested and unknown |
| Replays.DecisionRepeats | internal/store/stop_transactions.go:590-640 | a decision is taken for a repetition only if the log holds exactly its acceptances, with its principal, class, reason and evidence, and the stop shows the result |
| Replays.ResolutionRepeats | internal/store/restore_transactions.go:271-361 | a resolution is taken for a repetition only for the principal who made it, on the same basis and for the same runtime |
| DispatchProofs.PrepareKeeps | internal/store/dispatch.go:138-392 | allocation keeps the whole invariant: the new number is the next one, the lane was free, the latest contract is frozen with every predecessor, and the snapshot is the current clean session |
| StopProofs.OutcomeKeeps | internal/store/stop_transactions.go:229-325 | committing any admitted outcome keeps the whole invariant, including that a session is only cleaned when no other attempt, restore or unknown delivery on the Pair is at risk |
| RestoreProofs.ConfirmKeeps | internal/store/restore_transactions.go:198-267 | changing the session generation keeps every attempt, stop and restore consistent with it |
| RestoreProofs.CleanupKeeps | internal/store/restore_transactions.go:604-687 | inserting the linked cleanup stop keeps stop uniqueness and ownership |
| RestoreProofs.InterruptedKeeps | internal/store/recovery_transactions.go:384-434 | quarantining a whole runtime at once keeps the invariant |
| ClearanceProofs.ClearKeeps | internal/store/clearance_transactions.go:43-139 | a clearance keeps the invariant although it cleans many attempts and the session in one step |
| RecoveryProofs.ObserveKeeps | internal/store/recovery_transactions.go:246-372 | an observation keeps the invariant for every answer, including the ones that close the attempt |
| TaskProofs.InsertKeeps | internal/store/contract_store.go:18-146 | inserting a revision keeps the contract lineage exact |
| Quarantine.CleanPairAlways | internal/store/dispatch.go:277-305 | in every state of every run a CLEAN session has no quarantined attempt on any task of its Pair |
| Quarantine.TaskCheckSuffices | internal/store/dispatch.go:277-305 | the per-task quarantine check of allocation admits exactly the dispatches a Pair-wide check would admit |
| Quarantine.UnknownDeliveryLocksPair | internal/store/dispatch_transactions.go:421-536 | from the commit of RecordUnknownDelivery until a clearance commits on that Pair, no run, whatever live stops it confirms, commits an allocation or a send intent on the Pair |
| Quarantine.PoisonStays | internal/store/clearance_transactions.go:99-138 | no transaction but a clearance of the Pair lifts the quarantine of a closed attempt |
| Quarantine.ClearanceCleansPair | internal/store/clearance_transactions.go:43-139 | a committed clearance leaves the Pair with a clean session, no quarantined attempt, no unresolved restore and every stop terminated, absent or risk-accepted, and changes no other Pair |
| EvidenceTheorems.ClearanceIsEvidenced | internal/store/clearance_transactions.go:241-317 | for the session and for each attempt a clearance cleans there is a stop of the Pair confirmed for exactly that session, generation and attempt, or exactly one acceptance of exactly that lineage by the principal of the request, of the class the result of its stop demands |
| EvidenceTheorems.ClearanceCommitsIff | internal/store/clearance_transactions.go:43-139 | in every state of every run a clearance commits exactly when it names the quarantined session and every quarantined attempt once, all closed, each with such a proof by its newest stop, and every stop of the Pair is settled and reconciled for each of them |
| ClearanceProofs.ClearMeansClean | internal/store/clearance_transactions.go:144-233 | every quarantined attempt of the Pair was named by the request, because distinct requested lineages as many as the quarantined ones are all of them |
| ClearanceProofs.NamedIsExpected | internal/store/clearance_transactions.go:99-125 | distinct requests that are all expected, and as many as are expected, cover the expected set |
| StopTheorems.PendingStopIsOwnedAndUnique | internal/store/stop_transactions.go:521-537 | in every state a pending stop passes guardStopRestoreOwner and is the only pending stop of its Pair, although no index says so |
| StopTheorems.StopSettledOnce | internal/store/stop_transactions.go:553-698 | a stop that left IN_FLIGHT never changes again, except once to ADMINISTRATIVE_RISK_ACCEPTED, and never from a confirmed, absent or accepted resolution |
| StopTheorems.DeadlineKept | internal/store/stop_transactions.go:185-212 | the confirmation deadline, once set, and the target of a stop never change |
| StopTheorems.StopRowsAlways | internal/store/stop_transactions.go:229-344 | every stop row is in the (stage, resolution, timestamps) table, and a confirmed termination satisfies call <= confirmed < deadline |
| StopTheorems.EvidenceExactAlways | internal/store/restore_transactions.go:519-579 | positiveD11StopEvidence accepts exactly when some confirmed stop in its filter has no lineage or a closed, still quarantined one: its audit join and timestamp comparisons never lose a row |
| StopTheorems.UnknownDeliveryAlwaysEnabled | internal/store/dispatch_transactions.go:480-535 | in every run containment is always enabled: RecordUnknownDelivery commits exactly when the current attempt of a DISPATCHED task has an unresolved send intent |
| StopTheorems.LiveStopAlwaysCloses | internal/store/stop_transactions.go:434-477 | for a live stop the closing updates never fail: CommitStopOutcome commits exactly the outcomes that fit the row |
| StopTargets.GenerationChangesOnConfirm | internal/store/restore_transactions.go:198-267 | no transaction other than a confirmed restore of the Pair changes its session or generation |
| StopTargets.TargetsCurrentAlways | internal/store/session_lifecycle.go:342-450 | in every state an in-flight stop without a restore targets the current generation of its Pair |
| StopTargets.OutcomeCommits | internal/store/stop_transactions.go:229-325 | for any stop, CommitStopOutcome commits exactly the outcomes that fit the row unless the stop is a maintenance stop of an observed but never confirmed generation |
| RuntimeTheorems.StopSettles | internal/store/stop_transactions.go:434-501 | whenever a stop row newly shows a result: if the session row shows its session and generation, the session is TERMINATED for a confirmed termination and unchanged in status otherwise, and stays quarantined unless a live stop ended the only risk of the Pair; a live attempt is closed at that instant with the disposition of the result, quarantined unless confirmed, and its task FAILED |
| RuntimeTheorems.StatusExact | internal/store/session_lifecycle.go:181-228 | the status of a session changes for three reasons only and for each of them: a stop of its runtime newly confirmed, its own worker observed terminated, or the status that a confirmed restore or a status update carries |
| RuntimeTheorems.ObservationTable | internal/store/recovery_transactions.go:246-372 | for every committed observation the state, disposition, quarantine and session that follow, as a table over its own fields: absent, stale, terminated, missed, active, waiting, blocked, idle with hand-over, exited, and held |
| RuntimeTheorems.OnlyObservationsRun | internal/store/recovery_transactions.go:294-300 | in production runs a task becomes RUNNING only from DISPATCHED and only by an observation of its own living worker, active, waiting, blocked, or idle after a hand-over |
| StopTargets.StrandedForever | internal/store/stop_transactions.go:273-325 | once the kill of such a stop has been accepted, in every continuation the stop stays in flight, its restore unresolved, and the Pair can be neither dispatched to nor cleared |
| StopTargets.StrandingHappens | internal/store/restore_transactions.go:604-687 | a seven-transaction run of production steps that strands a stop |
| BudgetTheorems.ConfirmedIffBudget | internal/store/dispatch_transactions.go:234-299 | a dispatch operation is SEND_CONFIRMED exactly when a budget names it, and that one budget starts at the confirmation and ends its positive duration later |
| BudgetTheorems.BudgetsNeverChange | internal/store/migrations.go:307-310 | a budget row is never updated or deleted in any run |
| BudgetTheorems.LegacyBindingNeverAdmitted | internal/store/dispatch_transactions.go:345-417 | in a database born at the current schema no run ever admits a legacy budget binding |
| BudgetTheorems.TimeoutsDueIff | internal/store/stop_transactions.go:70-88 | every TIMEOUT stop of a run is requested at or after the deadline of its attempt's budget if and only if every restore cleanup of the run that was given the TIMEOUT cause names an attempt whose budget had ended by then, which is the comparison ClaimRestoreCleanupWithStop omits |
| BudgetTheorems.ForgedTimeoutHappens | internal/store/restore_transactions.go:604-687 | a run whose only stop has the TIMEOUT cause although no attempt, budget or deadline exists |
| RestoreTheorems.OpenAttemptIsCurrent | internal/store/dispatch.go:202-210 | the (session, generation) snapshot of every open attempt is its Pair's current session and no restore of the Pair is unresolved |
| RestoreTheorems.UnresolvedRestoreIsolates | internal/store/restore_transactions.go:40-84 | an unresolved restore means a quarantined session, no open attempt on the Pair and no second unresolved restore |
| RestoreTheorems.GenerationChangeStrandsNothing | internal/store/restore_transactions.go:198-267 | whenever a generation changes, the step is ConfirmPairRestore and the Pair has no open attempt before or after it |
| RestoreTheorems.RestoreUpdatesAccepted | internal/store/migrations.go:242-287 | every commit that touches a restore row is one or two updates the forward-only trigger accepts, and the new row passes every CHECK |
| RestoreTheorems.RestoreTerminates | internal/store/restore_transactions.go:155-194 | the number of changes of a restore row is bounded by its version, which never exceeds 5 |
| RestoreTheorems.ResolvedRestoreHasSettledStop | internal/store/restore_transactions.go:365-515 | a restore has at most one linked stop, and when the restore is resolved that stop is settled |
| EvidenceTheorems.ResolutionIsBacked | internal/store/restore_transactions.go:365-515 | whenever a restore becomes resolved: on a physical basis its linked stop is confirmed and every quarantined attempt of the Pair has a confirmed stop that names it; on an administrative basis its stops are settled and, if there is one, session and quarantined attempts are confirmed ended or accepted in the log by its principal; on an HTTP 200 basis it was confirmed and has no stop |
| EvidenceTheorems.AmbiguousCommitsIff | internal/store/restore_transactions.go:365-515 | an ambiguous restore is resolved exactly on this evidence, for its own tuple, and physically only from a cleanup claim of the same principal |
| LineageTheorems.RevisionsExact | internal/store/contract_store.go:60-111 | the revisions of a task are exactly 1..n with one base SHA, each superseding its predecessor, and only the last can be mutable |
| LineageTheorems.FailedMayRetry | internal/store/task_store.go:154-195 | the contract check of FAILED to READY never rejects |
| LineageTheorems.AttemptNumbersExact | internal/store/dispatch.go:167-226 | attempt numbers are exactly 1..current_attempt, once each, and from DISPATCHED to REVIEWING or BLOCKED the current one is open |
| LineageTheorems.OneLaneAlways | internal/store/task_store.go:197-213 | a Pair has at most one task in DISPATCHED, RUNNING or REVIEWING; every attempt ran a frozen contract and later attempts never an earlier revision |
| LineageTheorems.RestartRecoveryConsistent | internal/store/dispatch.go:167-226 | a DISPATCHED task always has an open current attempt |
| LineageTheorems.SnapshotConsistent | internal/store/recovery_transactions.go:41-47 | with production steps alone the inconsistency query of ListRecoverySnapshot is false in every state |
| Protocol.MoveKeeps | internal/dispatch/coordinator.go:227-332 | whatever any frame, operator, poller or scan does next, and wherever it crashes, every permit stays backed by one committed and unused intent, scopes exclude each other, and an unanswered stop under a Pair scope stays unanswered |
| Protocol.BackgroundLeavesUnanswered | internal/stop/coordinator.go:216-251 | no production writer but a stop's own coordinator and the scan ever writes a stop whose kill is unanswered, because Observe and the poller expect STOP_CALL_SUCCEEDED |
| Protocol.AtMostOnce | internal/stop/coordinator.go:87-212 | in every behaviour of one-use permits with crashes every call has its durable intent, and there is one prompt per attempt, one kill per stop, one live kill per attempt, one resume per restore and one create per Pair |
| Protocol.OrphanedForever | internal/stop/coordinator.go:143-148 | a durable intent whose call has not been made and for which no frame holds a permit is never executed |
| CoordinatorProofs.CommitTurn | internal/dispatch/coordinator.go:227-332 | no coordinator holds a permit while it commits; it gets one exactly from the intent it saw commit, and only the owner of a stop settles it |
| CoordinatorProofs.HostRefines | internal/dispatch/coordinator.go:38-134 | every run of the host, with Provision, Restore, Dispatch, Start and StartTimeout followed statement by statement, commits that succeed although the caller saw an error, sweeps and crashes, is a behaviour of the permit protocol with the same database, scopes and calls; what each coordinator makes of the answers is CoordinatorAnswers |
| CoordinatorTheorems.HostCallsOnce | internal/stop/coordinator.go:87-212 | in every interleaving of coordinators every call has its durable intent, and there is one prompt per attempt, one live kill per attempt, one resume per restore and one create per Pair |
| CoordinatorTheorems.HostCallFollowsIntent | internal/dispatch/coordinator.go:227-332 | a coordinator on its way to its call has seen the intent commit, nobody has made that call, and no other coordinator is on its way to it |
| CoordinatorTheorems.AbandonedForever | internal/stop/coordinator.go:45-60 | a row is never taken for a permit: an intent left by a crash, a refusal before the kill or a failed commit report is never executed in any continuation |
| CoordinatorTheorems.CrashAbandons | internal/stop/coordinator.go:45-60 | after a crash none of the intents that were durable and not yet executed is executed |
| CoordinatorTheorems.LostIntentNeverCalled | internal/stop/coordinator.go:141-148 | when the commit of an intent succeeds but its caller sees an error, the intent stays durable and its call is never made |
| CoordinatorReports.ReportedIsDurable | internal/dispatch/coordinator.go:38-134 | a success that Provision, Restore or Dispatch reports was preceded by its call and is recorded in rows nobody takes back, on the re-read path too; a success of Start means the stop is settled or its kill accepted |
| CoordinatorAnswers.AmbiguousSendIsContained | internal/dispatch/coordinator.go:300-414 | in every run of the host a Dispatch that has made its send and has ended leaves no open send intent on its operation, whatever AO answered and whoever ran in between, unless one of its own reads failed or its containing transaction did not commit |
| CoordinatorAnswers.AnsweredKillIsRecorded | internal/stop/coordinator.go:151-212 | a Start or StartTimeout whose kill was answered and whose writes commit ends with a row that shows the answer: call and deadline, an absent target, a refusal, or an unknown outcome, later at most observed or accepted |
| CoordinatorAnswers.ConfirmationIsReported | internal/dispatch/coordinator.go:300-414 | a confirmation that took effect, although its caller saw the commit fail, is reported as success unless a read of the caller fails; a Dispatch may find that its task has gone on to another attempt |
| CoordinatorAnswers.DispatchAnswers | internal/dispatch/coordinator.go:227-332 | the turn Dispatch takes after each status or send reply, others running in between: close, hold, reject or intend by the answer; confirm only on acceptance for its own session; send only after its intent committed |
| CoordinatorAnswers.DispatchStarts | internal/dispatch/coordinator.go:227-290 | how Dispatch gets to its first question: it allocates a READY task, goes on with a DISPATCHED one only if its rows are those of the same allocation, current, open and unsent, and otherwise ends without a call |
| CoordinatorAnswers.StopAnswers | internal/stop/coordinator.go:148-172 | the turn Start takes after the status before its kill: kill only the named worker, alive, and for a timeout only an interruptible one; otherwise record what the answer proves or stop |
| CoordinatorAnswers.StopBegins | internal/stop/coordinator.go:47-110 | a timeout acquires its Pair first, a live stop reserves at once, every other stop asks the operator boundary first |
| CoordinatorAnswers.ConfirmationAnswers | internal/stop/coordinator.go:216-251 | the turn Start takes after the status that follows an accepted kill: confirm only the named worker seen terminated before the deadline, time out at or after it |
| CoordinatorAnswers.StopTurns | internal/stop/coordinator.go:47-210 | which reservation Start makes, for whom and having seen what; when a timeout may still kill; what it makes of a row it had to read again |
| CoordinatorAnswers.RestoreAnswers | internal/dispatch/coordinator.go:71-137 | Restore confirms exactly the generation that resume and status both name for the session, in the state the status shows, and marks any other reply unknown |
| CoordinatorAnswers.ProvisionAnswers | internal/dispatch/coordinator.go:38-69 | Provision confirms exactly a created, living session and fails on any other reply |
| CoordinatorReports.HostTimeoutKillIsContained | internal/stop/coordinator.go:56-85 | at the statement where StartTimeout kills, its row is STOP_REQUESTED and IN_FLIGHT with the requested target, the task RUNNING, the attempt open and quarantined, and the session that of the attempt and quarantined |
| CoordinatorTheorems.HostTimeoutsDueIff | internal/stop/coordinator.go:47-85 | in a run of the host every TIMEOUT stop is due if and only if no operator call gave a restore cleanup that cause before its budget had ended: Start and StartTimeout never do |
| Protocol.TimeoutKillIsContained | internal/stop/coordinator.go:56-85 | the same for every frame of the protocol that holds a Pair scope, whoever else writes the store |
| Containment.SendsLoggedAlways | internal/store/dispatch_transactions.go:207-230 | in every state each advanced dispatch stage has left the audit events that containment looks for |
| Containment.ReadEvents | internal/dispatch/coordinator.go:354-386 | the paged re-read of the log finds what one pass over the whole log would find |
| Containment.ContainAmbiguousSend | internal/dispatch/coordinator.go:336-414 | after an ambiguous send the named current attempt is delivered, already contained or contained now; nothing else changes and no send intent is left open |
| ScanSteps.SweepMayStart | internal/recovery/scanner.go:172-216 | the sweep's precondition holds in every state of every run, also after transitions that no production code makes |
| ScanSteps.ScanStep | internal/recovery/scanner.go:216-368 | each transaction of a sweep keeps the invariants, those of production runs included, leaves nothing behind that was not there, and keeps owners and stranded stops |
| Scanner.Runner.Run | internal/recovery/scanner.go:172-368 | after any run, a complete sweep leaves no provisioning, restore or send intent unanswered and no blocked attempt open, no stop in flight unless AO is pending, and has counted every candidate once; interrupted restores are then unknown, open provisionings failed and blocked attempts escalated, and under steady answers the rows of every candidate and stop show the verdict of their answer; it cannot complete while a stranded stop is overdue; under steady answers it completes only when every candidate and stop gets an answer that passes, and after production steps, uncancelled, whenever they do; and it then reaches a settled state, from which a sweep writes nothing but the log |
| Scanner.Runner.ClassifySnapshot | internal/recovery/scanner.go:230-349 | the same for the lists of one snapshot, in their order |
| SweepCompletion.StopPassesSame | internal/recovery/scanner.go:524-570 | what AO has to answer about a stop does not change while the sweep works on other candidates |
| SweepCompletion.OutcomeCommits | internal/store/stop_transactions.go:229-325 | in every state a sweep can meet, an outcome commits only if it fits the row and the stop is not one of an unconfirmed generation; after production steps exactly then |
| SweepCompletion.SeenFits | internal/recovery/scanner.go:545-570 | the outcome the sweep chooses for a session it has seen fits the row exactly when the answer passes |
| Scanner.Runner.ClassifyExecution | internal/recovery/scanner.go:431-501 | one classification touches no other execution, either rejects without a write or leaves its execution with the verdict of that answer and quiet under it, and contains an unresolved send intent |
| Scanner.Runner.ClassifyPreSend | internal/recovery/scanner.go:503-522 | the pre-send decision shows the verdict of its answer: closed with the reason, held, or releasable; it writes no table when it already did, and fails only on an empty answer |
| Scanner.Runner.ClassifyPostSend | internal/recovery/scanner.go:431-501 | the post-send decision shows the verdict of its answer, closed or quiet under it, and succeeds exactly on an answer about the session asked for, with a handoff answer when it is needed |
| Scanner.Runner.ClassifyExecutions | internal/recovery/scanner.go:270-291 | a send phase leaves every unowned candidate quiet and, under steady answers, with the verdict of its answer, keeps what the phases before decided, counts its rows, and goes through when, uncancelled, and under steady answers only when, every row gets an answer that passes |
| Scanner.Runner.ClassifyStop | internal/recovery/scanner.go:524-570 | one in-flight stop is settled, handed to a human or left waiting with AO pending, with the result its answer stands for; this succeeds only on an answer that passes for it, after production steps on every such answer, and no execution the stop does not own changes |
| Scanner.Runner.ClassifyStops | internal/recovery/scanner.go:292-307 | afterwards every in-flight stop waits, none is in flight unless AO is pending, an overdue stranded stop was rejected, and under steady answers every stop was given an answer that passes; after production steps such answers, uncancelled, let the loop through |
| Scanner.Runner.ClassifyRestores | internal/recovery/scanner.go:238-253 | uncancelled the loop always succeeds, then no interrupted restore request remains, and no execution changes |
| Scanner.Runner.FailProvisionings | internal/recovery/scanner.go:254-269 | uncancelled the loop always succeeds, then no unanswered provisioning remains, and no execution changes |
| Scanner.Runner.CloseBlocked | internal/recovery/scanner.go:308-324 | uncancelled the loop always succeeds, then no BLOCKED task with an open current attempt remains, and stops and other executions stay as they are |
| SweepRest.Reacts | internal/recovery/scanner.go:431-522 | each statement about an execution changes that execution to one stated successor and no other execution |
| SweepRest.Judges | internal/recovery/scanner.go:431-522 | after a statement of the sweep the rows of its execution show the verdict the statement carries out: a closed attempt with its reason, or an open one with state and mark |
| SweepRest.ObservedIsQuiet | internal/store/recovery_transactions.go:246-372 | an execution that survives an observation is left alone by the same observation |
| SweepRest.QuietObservation | internal/store/recovery_transactions.go:246-372 | repeating a quiet observation changes no table |
| SweepRest.OutcomeLeavesUnowned | internal/store/stop_transactions.go:434-501 | settling a stop changes no execution that no live stop owns |
| AuditChain.EncodeInjective | internal/store/audit_store.go:25-59 | two events whose fields are all under 4 GiB and have the same hash preimage are the same event at the same place |
| AuditChain.StoredInjective | internal/store/audit_store.go:105-116 | rows that the store accepts never share a preimage, however long their details are, because every other field is at most 256 bytes or a hash of fixed length |
| AuditChain.InjectiveIffBelow | internal/store/audit_store.go:25-59 | the preimage of events with every field shorter than a bound is injective if and only if the bound is at most 2^32 |
| AuditChain.WrappedPrefixCollides | internal/store/audit_store.go:25-32 | at 2^32 bytes the length prefix wraps: a general family of two-field lists with one framing |
| AuditChain.PreimageLayout | internal/store/audit_store.go:36-59 | the preimage is the separator, the sequence number and the ten fields in their order, each field after its length |
| AuditChain.BigEndianValue | internal/store/audit_store.go:25-32 | lengths and sequence numbers are spelled most significant byte first, and read back |
| AuditChain.EqualHeadsEqualLogs | internal/store/audit_store.go:438-539 | two verified logs of stored rows with equal heads are equal, or exhibit two preimages with one hash |
| AuditChain.AuditStore.Append | internal/store/atomic_transitions.go:27-118 | an append commits exactly for valid fields, a known lineage and a fresh row (UNIQUE id, sequence and hash); it then extends the log by that event and keeps it verifiable, and otherwise changes nothing |
| AuditChain.RecordedIff | internal/store/atomic_transitions.go:27-118 | in a verified log an event is recorded exactly with an ID, type and actor of 1 to 256 bytes, identifiers of at most 256, a consistent lineage and a new ID and hash; its record has the next number, the previous hash and the event's own fields |
| AuditChain.AuditStore.AppendAuditEvent | internal/store/audit_store.go:103-255 | the entry of its own transaction commits exactly when, besides, a task or a Pair named alone exists |
| AuditChain.AuditStore.Verify | internal/store/audit_store.go:438-539 | the verifier accepts exactly the well-formed chains |
| AuditChain.VerifiedIsChain | internal/store/audit_store.go:438-539 | a log is well formed exactly when it is what appending its contents one by one builds |
| AuditChain.AuditStore.List | internal/store/audit_store.go:345-431 | for a limit within 1 to 500 the page is the first rows above the sequence number, in order, or an error if one of them does not decode; any other limit is an error |
| AuditChain.AboveIsTail | internal/store/audit_store.go:345-431 | in a chained log the rows above a sequence number are the rest of the log from that position |
| AuditChain.AuditStore.ReadAll | internal/dispatch/coordinator.go:354-386 | paging by the last sequence number reads every row once, in order, and fails exactly when one does not decode |
| AuditRuns.RunLogVerifies | internal/store/audit_store.go:438-539 | in every state of every run the chained log verifies and extends the chained log of every earlier state |
| AuditRuns.EqualHeadsEqualRuns | internal/store/audit_store.go:438-539 | two runs that reach the same chain head have logged the same events in the same order, with everything the first ever logged among them, or exhibit two preimages with one hash |
| HostAuthority.Authority.AcquireExclusiveScope | internal/host/authority.go:97-127 | a Pair permit is granted exactly when nothing drains and neither that Pair nor the global scope is held |
| HostAuthority.Authority.AcquireGlobalExclusiveScope | internal/host/authority.go:130-158 | the global permit is granted exactly when nothing is held and nothing drains |
| HostAuthority.Authority.Release | internal/host/authority.go:20-28 | the first release frees exactly the scope of the permit; a second one changes nothing, whoever holds the scope by then |
| HostAuthority.Authority.Drain | internal/host/authority.go:177-194 | admission closes for good, the callers that return within the timeout are released and no others, and the drain succeeds exactly when every caller returned in time |
| HostAuthority.Authority.SetUnavailable | internal/host/authority.go:71-75 | admission closes and no permit changes |
| HostAuthority.Authority.WaitAllReleased | internal/host/authority.go:201-203 | afterwards no permit is live |
| HostAuthority.IdleMeansReleased | internal/host/authority.go:20-28 | with no scope held every permit ever issued has been released |
| HostAuthority.KeepAllIsFirst | internal/host/drain.go:32-38 | the error kept over a list of closers is the first failure |
| HostAuthority.Shutdown.ExecuteShutdownDrain | internal/host/drain.go:32-98 | in time or not, with an authority or without, the store is closed with no permit live and admission closed; every present component is closed once, the store after the join and the lock after everything; the reported error is the first failure in closing order |
| DispatchStore.PrepareBoundDispatch | internal/store/dispatch.go:138-392 | commits exactly when the allocation guard holds, with exactly the rows of the allocation, and otherwise changes nothing |
| DispatchStore.RecordPreSendHold | internal/store/dispatch_transactions.go:18-70 | writes exactly the admitted holds, answers an exact repetition without a write and never downgrades a protocol hold |
| DispatchStore.RecordPreSendAdmissibilityRejected | internal/store/dispatch_transactions.go:81-115 | records a rejection in the log alone |
| DispatchStore.ResolvePreSendHold | internal/store/dispatch_transactions.go:119-172 | clears exactly the named hold of the exact lineage, a protocol hold only for a principal |
| DispatchStore.RecordSendRequested | internal/store/dispatch_transactions.go:176-230 | the send intent commits exactly for a current, open, unheld attempt on a clean session without unresolved restore or provisioning |
| DispatchStore.RecordSendConfirmed | internal/store/dispatch_transactions.go:234-299 | confirmation and budget commit together or not at all |
| DispatchStore.RecordUnknownDelivery | internal/store/dispatch_transactions.go:421-536 | closes the attempt, escalates the task, marks the operation and quarantines attempt and session together or not at all |
| DispatchStore.AtomicTerminalTransition | internal/store/atomic_transitions.go:139-244 | closes an open current attempt with its disposition; an absent, stale or mismatched runtime also quarantines attempt and session |
| DispatchStore.AtomicAttemptClosureTransition | internal/store/atomic_transitions.go:248-316 | escalates a BLOCKED task and closes its attempt together or not at all |
| StopStore.ReserveStopOperation | internal/store/stop_transactions.go:18-121 | a stop is reserved, and its targets quarantined, exactly when its runtime and lineage are current, the lane is free and a TIMEOUT is due |
| StopStore.ValidateTimeoutEffectOwner | internal/store/stop_transactions.go:126-160 | the joined checks refuse exactly the stops that TimeoutEffectOwner excludes; what that means for a run is TimeoutOwner.TimeoutOwnerExact |
| TimeoutOwner.TimeoutOwnerExact | internal/store/stop_transactions.go:126-160 | in every state of a production run, of all its conditions only two can fail: the kill is let through exactly when the TIMEOUT stop is still unanswered and no delivery of the Pair was ever left unknown |
| TimeoutOwner.UnknownDeliveryRefusesTimeouts | internal/store/stop_transactions.go:126-160 | once a delivery on a Pair is unknown, every later timeout kill on that Pair is refused in every continuation, also after a clearance |
| StopStore.CommitStopCallAccepted | internal/store/stop_transactions.go:185-212 | sets call time and deadline once, on an owned unanswered stop |
| StopStore.CommitStopOutcome | internal/store/stop_transactions.go:229-325 | settles the stop and closes or touches its runtime together or not at all, exactly for admitted outcomes; what the rows then show is RuntimeTheorems.StopSettles |
| StopStore.CloseLiveStopTx | internal/store/stop_transactions.go:434-501 | closes the attempt and task, terminates the session for a physical result, and cleans it only if that was the only risk on the Pair (RuntimeTheorems.StopSettles) |
| StopStore.GuardStopRestoreOwner | internal/store/stop_transactions.go:521-537 | admits an unlinked stop only without an unresolved restore, a linked one only under the restore that claimed it |
| StopStore.ClassifyAbandonedStopAlive | internal/store/stop_transactions.go:399-432 | hands an unanswered stop on a live runtime to a human, and answers its repetition without a write |
| StopStore.AcceptStopAdministrativeRisk | internal/store/stop_transactions.go:553-698 | accepts risk once per stop for exactly the named quarantined lineages; an exact replay is answered without a write and a different one refused |
| StopStore.StopAcceptanceEvents | internal/store/stop_transactions.go:706-739 | fails exactly when two acceptances of the stop name one lineage, and otherwise finds exactly the earlier acceptances of the stop, by lineage |
| RestoreStore.ReservePairRestore | internal/store/restore_transactions.go:15-105 | a restore is reserved, once per authorization, and the session quarantined, exactly when the session is the clean, terminated, current one and the Pair has nothing open, quarantined, unanswered or pending |
| RestoreStore.RecordPairRestoreUnknown | internal/store/restore_transactions.go:150-194 | marks an unanswered resume unknown, once |
| RestoreStore.ConfirmPairRestore | internal/store/restore_transactions.go:198-267 | installs the observed generation and keeps the session quarantined |
| RestoreStore.ResolveConfirmedRestore | internal/store/restore_transactions.go:271-361 | resolves a confirmed restore for exactly the observed idle or waiting runtime, directly or under the same principal's claim |
| RestoreStore.ClaimRestoreRecovery | internal/store/restore_transactions.go:689-735 | a recovery claim commits for the exact tuple, once |
| RestoreStore.ClaimRestoreCleanupWithStop | internal/store/restore_transactions.go:604-687 | claims the cleanup and inserts the linked stop together or not at all |
| RestoreStore.CheckPhysicalCoverage | internal/store/restore_transactions.go:421-467 | answers exactly whether the linked stop and every quarantined attempt of the Pair have positive evidence; what that demands of the rows is EvidenceTheorems.ResolutionIsBacked |
| RestoreStore.ResolveAmbiguousRestore | internal/store/restore_transactions.go:365-515 | resolves on physical or administrative coverage only, exactly as the coverage demands (EvidenceTheorems.AmbiguousCommitsIff) |
| RestoreStore.ClassifyInterruptedRestore | internal/store/recovery_transactions.go:384-434 | an interrupted resume becomes unknown and its whole runtime quarantined; a settled one is answered without a write |
| ClearanceStore.GuardPairStops | internal/store/clearance_transactions.go:144-233 | for every request: answers exactly whether every stop of the Pair is settled with its newest resolution per expected lineage cleared or evidenced, evidence of the request being current |
| ClearanceStore.GuardIsReconciled | internal/store/clearance_transactions.go:144-233 | for requests that name quarantined attempts of the Pair, which the item loop demands next, the one-pass guard is the declarative reconciliation of every stop |
| ClearanceRecords.OutcomeLeavesNoClearance | internal/store/stop_transactions.go:162-181 | a clearance reads the generation under a name that settling a stop, physically or not, never writes, so it finds no new record |
| ClearanceRecords.LiveClearanceRecorded | internal/store/stop_transactions.go:489-499 | although a confirmed live stop does record the clearance of its attempt, under the other name |
| ClearanceRecords.ConfirmedNeedsNoClearance | internal/store/clearance_transactions.go:235-239 | adding the record of a confirmed stop would admit exactly the same clearances |
| ClearanceStore.CheckItems | internal/store/clearance_transactions.go:105-121 | the loop with the expected-lineage map accepts exactly distinct, expected, closed and proved lineages; what a proof is, EvidenceTheorems.ClearanceIsEvidenced says by rows and events |
| ClearanceStore.ClearItems | internal/store/clearance_transactions.go:122-130 | the update loop cleans exactly the named attempts |
| ClearanceStore.ClearQuarantineWithEvidence | internal/store/clearance_transactions.go:43-139 | clears every quarantined attempt and the session together exactly when stops, restores and evidence allow (EvidenceTheorems.ClearanceCommitsIff), and otherwise changes nothing |
| LifecycleStore.InsertTaskContract | internal/store/contract_store.go:18-146 | inserts exactly the admitted next revision |
| LifecycleStore.TransitionTask | internal/store/task_store.go:124-249 | moves along a canonical edge exactly when contract and lane rules hold |
| LifecycleStore.CheckReadyContract | internal/store/task_store.go:154-195 | answers exactly whether the latest revision is mutable, or frozen for a retry |
| LifecycleStore.ReservePairProvisioning | internal/store/provisioning_transactions.go:15-74 | one provisioning intent, for a Pair without a session, a quarantined or open attempt, or a pending operation |
| LifecycleStore.ConfirmPairProvisioning | internal/store/provisioning_transactions.go:79-135 | session and confirmation commit together or not at all |
| LifecycleStore.FailPairProvisioning | internal/store/provisioning_transactions.go:139-178 | fails exactly a requested provisioning |
| LifecycleStore.FailProvisioningAtStartup | internal/store/recovery_transactions.go:438-477 | fails a requested provisioning and answers an already failed one without a write |
| LifecycleStore.RecordPostSendOutage | internal/store/recovery_transactions.go:172-218 | only the step from no disposition to RECOVERY_PENDING; an existing hold is never downgraded |
| LifecycleStore.ObservePostSend | internal/store/recovery_transactions.go:246-372 | succeeds exactly for an admitted observation, which commits the state, disposition, quarantine and events of RuntimeTheorems.ObservationTable, or for one that an existing hold ignores, which changes nothing |

## Left out

- Error classes: the store methods state exactly when they succeed; which of the source's error values a refusal carries is modelled in the bodies but not promised by the contracts.
- LifecycleStore.TransitionTask: requires that a task has no two contracts of one revision, which the unique index on (task_id, revision_number) guarantees.
- RestoreStore.ResolveAmbiguousRestore: requires that a restore has at most one linked stop, which idx_stop_restore_operation guarantees.
- RestoreStore.CheckPhysicalCoverage: requires the same index.
- ClearanceStore.ClearQuarantineWithEvidence: requires that the rowid order of the stop table lists rows that exist.
- Scanner.Runner.Run: one sweep with no other writer in between, which the host's global scope provides; the winner branches are kept but cannot fire in this setting. Acquiring and releasing that scope, stopping the poller and the running and ready flags around the sweep are not modelled.
- CoordinatorProofs.HostRefines: one live process; the process lease that provides it is not modelled. Context cancellation is an error answer to the turn it interrupts, and the handle released by StartTimeout never fails to release.
- Protocol.BackgroundLeavesUnanswered: UpdateStopOperationStage, an older entry point without production callers, is not a step.
- RecoverPreSend, ResolveRestore, ClaimRestoreRecovery and the other operator calls: one transaction each behind the operator boundary, which the other writers of a host run include.
- The poller, the timeout monitor and the legacy maintenance calls: their store transactions are background steps, their loops and gates (Poller.PollOnce, TimeoutMonitor.Tick) are not modelled as code.
- Identifiers are opaque numbers, so the guards against empty strings and the presence checks on actors, reasons and evidence text have no counterpart; a stop names its task, contract and attempt all together or not at all.
- Databases upgraded from before schema v5: attempts without a session snapshot, NULL lineage columns and legacy budget evidence. The legacy binding is modelled only to show that it is never admitted.
- Columns no guard reads: restore_mode, endpoints, prompts, payloads, report paths, policy text beyond an identifier.
- The tables of projects and Pairs, foreign keys to them, restore_authorizations as a table (an authorization is a unique column of the restore row) and generic audit appends beyond an arbitrary event.
- The audit log appears twice: as the sequence of events that transactions read back, and as the hash chain of encoded rows; JSON encoding and the scrubber between the two are taken as faithful. NULL and empty lineage columns hash alike and are one value.
- SHA-256 is any function, random event IDs are arguments, times are integers of nanoseconds up to year 9999.
- Operator authentication: a principal is an argument of the transaction.
- workflow.AllowedTransitions, a listing of the transition relation that adds only an easy member.
- AO's HTTP client, SQLite itself (busy retries, migrations as a process), Windows handles, lock files, named pipes, the command line and report path containment.
