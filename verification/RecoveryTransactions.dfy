/** internal/store/recovery_transactions.go: the transactions that record what a status GET
    showed about an execution, and the snapshot the recovery loops work from. */
module RecoveryTransactions {
  import opened Domain
  import opened Tables

  /** RecoveryExecution: the tuple every later transaction rechecks. */
  datatype Execution = Execution(
    op: Id, pair: Id, task: Id, contract: Id, attempt: Id, session: Id, gen: Id,
    state: TaskState, stage: DispatchStage, disposition: Option<Disposition>)

  /** The join of a dispatch operation with its task and the task's current open attempt. */
  predicate HasExecution(db: DB, op: Id) {
    && op in db.dispatches
    && CurrentOpen(db, db.dispatches[op].bound.task, db.dispatches[op].bound.attempt)
  }

  function ExecutionOf(db: DB, op: Id): Execution
    requires HasExecution(db, op)
  {
    var d := db.dispatches[op];
    var b := d.bound;
    var a := db.attempts[b.attempt];
    Execution(op, b.pair, b.task, a.lineage.contract, b.attempt, b.session, b.gen, db.tasks[b.task].state, d.stage, a.disposition)
  }

  /** One joined row that the inconsistency query of ListRecoverySnapshot accepts. */
  predicate SnapshotRow(db: DB, t: Id, a: Id, d: Id) {
    && CurrentOpen(db, t, a) && d in db.dispatches
    && db.dispatches[d].bound.attempt == a && db.dispatches[d].bound.task == t && db.dispatches[d].bound.pair == db.tasks[t].pair
  }

  predicate SnapshotJoined(db: DB, t: Id) { exists a, d | a in db.attempts && d in db.dispatches :: SnapshotRow(db, t, a, d) }

  /** ListRecoverySnapshot's query: a DISPATCHED, RUNNING or BLOCKED task whose current attempt
      or dispatch operation is missing, or which is past DISPATCHED with an unconfirmed send. */
  predicate SnapshotInconsistent(db: DB) {
    exists t | t in db.tasks && db.tasks[t].state in {Dispatched, Running, Blocked} ::
      || !SnapshotJoined(db, t)
      || (!db.tasks[t].state.Dispatched?
          && exists a, d | a in db.attempts && d in db.dispatches :: SnapshotRow(db, t, a, d) && !db.dispatches[d].stage.SendConfirmed?)
  }

  /** guardStopOwnedExecutionTx. */
  predicate StopOwned(stops: map<Id, Stop>, x: Execution) {
    exists o | o in stops ::
      && stops[o].target.purpose.RunningAttemptStop? && stops[o].target.pair == x.pair
      && stops[o].target.lineage == Some(StopLineage(x.task, x.contract, x.attempt))
      && stops[o].target.session == x.session && stops[o].target.gen == x.gen
  }

  predicate ExecutionUnchanged(db: DB, x: Execution) {
    && HasExecution(db, x.op)
    && ExecutionOf(db, x.op) == x
    && x.stage.SendConfirmed?
    && (x.state.Dispatched? || x.state.Running?)
    && !StopOwned(db.stops, x)
  }

  // --- RecordPostSendOutage -----------------------------------------------------

  predicate OutageReplayed(db: DB, x: Execution) {
    ExecutionUnchanged(db, x) && SessionIs(db.sessions, x.pair, x.session, x.gen) && x.disposition == Some(RecoveryPending)
  }

  predicate OutageAdmits(db: DB, x: Execution) {
    && ExecutionUnchanged(db, x)
    && SessionIs(db.sessions, x.pair, x.session, x.gen)
    && x.disposition.None?
    && db.attempts[x.attempt].lineage.session == x.session && db.attempts[x.attempt].lineage.gen == x.gen
    && AuditLineage(db, x.pair, x.task, x.contract, x.attempt)
  }

  function OutageCommit(db: DB, x: Execution): DB
    requires x.attempt in db.attempts
  {
    db.(attempts := db.attempts[x.attempt := db.attempts[x.attempt].(disposition := Some(RecoveryPending))],
        log := db.log + [Note(PostSendPendingNote, x.op)])
  }

  // --- ObservePostSend ------------------------------------------------------------

  datatype PostSend =
    | AbsentRuntime(session: Id)
    | LiveRuntime(session: Id, gen: Id, activity: Activity, terminated: bool, handoff: bool)

  /** The disposition that closes the attempt, if the observation is terminal. */
  function TerminalDisposition(x: Execution, seen: PostSend): Option<Disposition> {
    if seen.AbsentRuntime? then Some(SessionAbsent)
    else if seen.gen != x.gen then Some(StaleExecutionGeneration)
    else if seen.terminated then Some(WorkerTerminationUnknown)
    else if x.state.Dispatched? && seen.activity.ActivityIdle? && !seen.handoff then Some(MissedActiveWindow)
    else None
  }

  function LiveDisposition(x: Execution, seen: PostSend): Option<Disposition>
    requires seen.LiveRuntime?
  {
    if x.state.Dispatched? && seen.activity.ActivityIdle? then Some(MissedActiveWindow)
    else if seen.activity.ActivityWaitingInput? then Some(AoWaitingInputObserved)
    else if seen.activity.ActivityBlocked? then Some(AoBlockedDecision)
    else None
  }

  function ObservedState(x: Execution, seen: PostSend): TaskState {
    if TerminalDisposition(x, seen).Some? then Failed
    else if x.state.Dispatched? && !seen.activity.ActivityExited? then Running
    else x.state
  }

  /** A held execution ignores every observation that does not close it. */
  predicate ObserveIgnored(x: Execution, seen: PostSend) {
    x.disposition.Some? && x.disposition != Some(RecoveryPending) && TerminalDisposition(x, seen).None?
  }

  predicate ObserveAdmits(db: DB, x: Execution, seen: PostSend) {
    && seen.session == x.session
    && ExecutionUnchanged(db, x)
    && !db.dispatches[x.op].unknown
    && x.pair in db.sessions
    && var s := db.sessions[x.pair];
    && s.session == x.session && (s.gen == x.gen || seen.AbsentRuntime? || seen.gen != x.gen)
    && db.tasks[x.task].pair == x.pair
    && db.attempts[x.attempt].lineage.session == x.session && db.attempts[x.attempt].lineage.gen == x.gen
    && AuditLineage(db, x.pair, x.task, x.contract, x.attempt)
  }

  /** A held execution that the observation does not close is answered without a write, before
      the lineage of its rows is compared. */
  predicate ObserveSkips(db: DB, x: Execution, seen: PostSend) {
    && seen.session == x.session
    && ExecutionUnchanged(db, x)
    && !db.dispatches[x.op].unknown
    && x.pair in db.sessions
    && var s := db.sessions[x.pair];
    && s.session == x.session && (s.gen == x.gen || seen.AbsentRuntime? || seen.gen != x.gen)
    && ObserveIgnored(x, seen)
  }

  function ObserveRow(a: Attempt, x: Execution, seen: PostSend, at: Time): Attempt {
    var why := TerminalDisposition(x, seen);
    if why.Some? then
      a.(ended := Some(at), disposition := why,
         quarantined := a.quarantined || why.value.SessionAbsent? || why.value.StaleExecutionGeneration?)
    else if x.disposition == Some(RecoveryPending) || LiveDisposition(x, seen).Some? then
      a.(disposition := LiveDisposition(x, seen))
    else a
  }

  function ObserveSession(s: Session, x: Execution, seen: PostSend): Session {
    match TerminalDisposition(x, seen)
    case Some(SessionAbsent) => s.(quarantined := true)
    case Some(StaleExecutionGeneration) => s.(quarantined := true)
    case Some(WorkerTerminationUnknown) => s.(status := SessionTerminated)
    case _ => s
  }

  function ObserveEvents(x: Execution, seen: PostSend): seq<Event> {
    (if x.disposition == Some(RecoveryPending) then [Note(PostSendRecoveredNote, x.op)] else [])
    + (if ObservedState(x, seen) != x.state then [TaskTransitionEvent(x.pair, x.task, x.attempt, x.state, ObservedState(x, seen), Some(x.op))] else [])
    + (if TerminalDisposition(x, seen).None? && seen.activity.ActivityBlocked? then [Note(BlockedOnDecisionNote, x.op)] else [])
    + (if seen.LiveRuntime? && seen.gen == x.gen && !seen.terminated && x.state.Dispatched? && seen.activity.ActivityIdle?
       then [Note(MissedWindowNote, x.op)] else [])
  }

  function ObserveCommit(db: DB, x: Execution, seen: PostSend, at: Time): DB
    requires x.task in db.tasks && x.attempt in db.attempts && x.pair in db.sessions
  {
    if ObserveIgnored(x, seen) then db
    else db.(
      tasks := db.tasks[x.task := db.tasks[x.task].(state := ObservedState(x, seen))],
      attempts := db.attempts[x.attempt := ObserveRow(db.attempts[x.attempt], x, seen, at)],
      sessions := db.sessions[x.pair := ObserveSession(db.sessions[x.pair], x, seen)],
      log := db.log + ObserveEvents(x, seen))
  }
}
