/** internal/store/dispatch.go, dispatch_transactions.go and atomic_transitions.go. */
module DispatchTransactions {
  import opened Domain
  import opened Tables
  import opened TaskTransactions

  // --- PrepareBoundDispatch -----------------------------------------------------

  /** The parameters of one allocation. */
  datatype Allocation = Allocation(task: Id, contract: Id, attempt: Id, op: Id, session: Id, gen: Id)

  predicate PrepareAdmits(db: DB, task: Id, contract: Id, attempt: Id, op: Id, session: Id, gen: Id) {
    && task in db.tasks && db.tasks[task].state.Ready?
    && var pair := db.tasks[task].pair;
    && !UnresolvedRestore(db.restores, pair)
    && !UnresolvedProvision(db.provisions, pair)
    && !LaneBusy(db.tasks, pair, task)
    && IsLatest(db.contracts, contract, task)
    && SessionIs(db.sessions, pair, session, gen)
    && !db.sessions[pair].quarantined
    && (forall a | a in db.attempts :: db.attempts[a].lineage.task == task ==> !db.attempts[a].quarantined)
    // primary keys and UNIQUE(task_id, attempt_number)
    && attempt !in db.attempts
    && (forall a | a in db.attempts :: !HasNumber(db.attempts, a, task, db.tasks[task].current + 1))
    && op !in db.dispatches
    && (forall d | d in db.dispatches :: db.dispatches[d].bound.attempt != attempt)
  }

  function PrepareCommit(db: DB, task: Id, contract: Id, attempt: Id, op: Id, session: Id, gen: Id): DB
    requires task in db.tasks && contract in db.contracts
  {
    var row := db.tasks[task];
    var n := row.current + 1;
    db.(tasks := db.tasks[task := Task(row.pair, Dispatched, n)],
        contracts := db.contracts[contract := db.contracts[contract].(frozen := true)],
        attempts := db.attempts[attempt := Attempt(Lineage(task, contract, n, session, gen), None, None, false)],
        dispatches := db.dispatches[op := Dispatch(Binding(attempt, row.pair, task, session, gen), DispatchBound, None, false)],
        log := db.log + [Note(DispatchBoundNote, op)])
  }

  // --- RecordPreSendHold --------------------------------------------------------

  /** A hold that is already in place is answered without a write. */
  predicate HoldReplayed(db: DB, op: Id, hold: Disposition) {
    && op in db.dispatches && db.dispatches[op].stage.DispatchBound?
    && db.dispatches[op].bound.attempt in db.attempts
    && db.attempts[db.dispatches[op].bound.attempt].disposition == Some(hold)
  }

  predicate HoldAdmits(db: DB, op: Id, hold: Disposition) {
    && (hold.RecoveryPending? || hold.PreSendProtocolUnverified?)
    && op in db.dispatches && db.dispatches[op].stage.DispatchBound?
    && var b := db.dispatches[op].bound;
    && b.attempt in db.attempts
    && var a := db.attempts[b.attempt];
    && (a.disposition.None? || (a.disposition != Some(PreSendProtocolUnverified) && hold.PreSendProtocolUnverified?))
    && AuditLineage(db, b.pair, b.task, a.lineage.contract, b.attempt)
    && a.ended.None? && a.lineage.session == b.session && a.lineage.gen == b.gen
  }

  function HoldCommit(db: DB, op: Id, hold: Disposition): DB
    requires op in db.dispatches && db.dispatches[op].bound.attempt in db.attempts
  {
    var a := db.dispatches[op].bound.attempt;
    db.(attempts := db.attempts[a := db.attempts[a].(disposition := Some(hold))],
        log := db.log + [Note(PreSendRejectedNote, op)])
  }

  // --- RecordPreSendAdmissibilityRejected -----------------------------------------

  predicate RejectAdmits(db: DB, op: Id, activity: Activity) {
    && (activity.ActivityActive? || activity.ActivityBlocked? || activity.ActivityExited?)
    && op in db.dispatches && db.dispatches[op].stage.DispatchBound?
    && var b := db.dispatches[op].bound;
    && b.attempt in db.attempts && db.attempts[b.attempt].ended.None?
    && AuditLineage(db, b.pair, b.task, db.attempts[b.attempt].lineage.contract, b.attempt)
  }

  function RejectCommit(db: DB, op: Id): DB {
    db.(log := db.log + [Note(PreSendRejectedNote, op)])
  }

  // --- ResolvePreSendHold ---------------------------------------------------------

  predicate ResolveHoldAdmits(db: DB, op: Id, attempt: Id, hold: Disposition, session: Id, gen: Id, activity: Activity, principal: Option<Id>) {
    && (activity.ActivityIdle? || activity.ActivityWaitingInput?)
    && (hold.RecoveryPending? || (hold.PreSendProtocolUnverified? && principal.Some?))
    && op in db.dispatches && db.dispatches[op].stage.DispatchBound?
    && var b := db.dispatches[op].bound;
    && b.attempt == attempt
    && CurrentOpen(db, b.task, attempt)
    && var a := db.attempts[attempt];
    && db.tasks[b.task].pair == b.pair
    && b.session == a.lineage.session == session && b.gen == a.lineage.gen == gen
    && a.disposition == Some(hold)
    && SessionIs(db.sessions, b.pair, session, gen)
    && AuditLineage(db, b.pair, b.task, a.lineage.contract, attempt)
  }

  function ResolveHoldCommit(db: DB, op: Id, attempt: Id): DB
    requires attempt in db.attempts
  {
    db.(attempts := db.attempts[attempt := db.attempts[attempt].(disposition := None)],
        log := db.log + [Note(PreSendRecoveredNote, op)])
  }

  // --- RecordSendRequested ----------------------------------------------------------

  predicate SendRequestedAdmits(db: DB, op: Id, seen: Observation, activity: Activity) {
    && (activity.ActivityIdle? || activity.ActivityWaitingInput?) && !seen.terminated
    && op in db.dispatches
    && var d := db.dispatches[op];
    && var b := d.bound;
    && b.attempt in db.attempts
    && var a := db.attempts[b.attempt];
    && d.stage.DispatchBound? && a.disposition.None?
    && b.session == seen.session && b.gen == seen.gen
    && SessionIs(db.sessions, b.pair, b.session, b.gen) && !db.sessions[b.pair].quarantined
    && !UnresolvedRestore(db.restores, b.pair)
    && !UnresolvedProvision(db.provisions, b.pair)
    && IsCurrent(db.tasks, db.attempts, b.attempt)
    && db.tasks[a.lineage.task].pair == b.pair && db.tasks[a.lineage.task].state.Dispatched?
    && a.ended.None? && a.lineage.session == b.session && a.lineage.gen == b.gen
    && AuditLineage(db, b.pair, b.task, a.lineage.contract, b.attempt)
    && !d.unknown
  }

  function SendRequestedCommit(db: DB, op: Id): DB
    requires op in db.dispatches
  {
    var b := db.dispatches[op].bound;
    db.(dispatches := db.dispatches[op := db.dispatches[op].(stage := SendRequested)],
        log := db.log + [SendRequestedEvent(op, b.pair, b.task, b.attempt, b.session, b.gen)])
  }

  // --- RecordSendConfirmed ------------------------------------------------------------

  predicate BudgetWindow(at: Time, duration: int) {
    duration > 0 && 0 <= at && at + duration < TIME_LIMIT
  }

  predicate SendConfirmedAdmits(db: DB, op: Id, http200: bool, at: Time, duration: int) {
    && http200
    && BudgetWindow(at, duration)
    && op in db.dispatches
    && var d := db.dispatches[op];
    && var b := d.bound;
    && b.task in db.tasks && b.attempt in db.attempts && b.pair in db.sessions
    && d.stage.SendRequested?
    && db.tasks[b.task].state.Dispatched?
    && db.tasks[b.task].current == db.attempts[b.attempt].lineage.number
    && SessionIs(db.sessions, b.pair, b.session, b.gen)
    && db.attempts[b.attempt].ended.None?
    // trg_execution_budget_lineage, primary key and UNIQUE(dispatch_operation_id)
    && CurrentOpen(db, db.attempts[b.attempt].lineage.task, b.attempt)
    && db.tasks[db.attempts[b.attempt].lineage.task].state.Dispatched? && d.confirmedAt.None?
    && b.attempt !in db.budgets
    && (forall k | k in db.budgets :: db.budgets[k].op != op)
    && AuditLineage(db, b.pair, b.task, db.attempts[b.attempt].lineage.contract, b.attempt)
    && !d.unknown
  }

  function SendConfirmedCommit(db: DB, op: Id, at: Time, duration: int, policy: Id): DB
    requires op in db.dispatches
  {
    var b := db.dispatches[op].bound;
    db.(budgets := db.budgets[b.attempt := Budget(op, at, at + duration, duration, policy, false)],
        dispatches := db.dispatches[op := db.dispatches[op].(stage := SendConfirmed, confirmedAt := Some(at))],
        log := db.log + [SendConfirmedEvent(op, b.pair, b.task, b.attempt)])
  }

  // --- BindLegacyExecutionBudget -------------------------------------------------------

  /** The first binding of a historical policy; an exact replay writes nothing. */
  predicate BindLegacyAdmits(db: DB, attempt: Id, op: Id, at: Time, duration: int) {
    && op in db.dispatches && db.dispatches[op].bound.attempt == attempt
    && var d := db.dispatches[op];
    && attempt in db.attempts
    && var t := db.attempts[attempt].lineage.task;
    && CurrentOpen(db, t, attempt)
    && d.stage.SendConfirmed? && d.confirmedAt.Some?
    && (db.tasks[t].state.Dispatched? || db.tasks[t].state.Running?)
    && SessionIs(db.sessions, db.tasks[t].pair, db.attempts[attempt].lineage.session, db.attempts[attempt].lineage.gen)
    && BudgetWindow(d.confirmedAt.value, duration)
    && attempt !in db.budgets
    && (forall k | k in db.budgets :: db.budgets[k].op != op)
  }

  // --- RecordUnknownDelivery ------------------------------------------------------------

  predicate UnknownDeliveryAdmits(db: DB, op: Id) {
    && op in db.dispatches
    && var d := db.dispatches[op];
    && var b := d.bound;
    && b.attempt in db.attempts
    && d.stage.SendRequested?
    && b.task in db.tasks && db.tasks[b.task].state.Dispatched?
    && AuditLineage(db, b.pair, b.task, db.attempts[b.attempt].lineage.contract, b.attempt)
    && CurrentOpen(db, b.task, b.attempt)
    && !d.unknown
    && SessionIs(db.sessions, b.pair, b.session, b.gen)
  }

  function UnknownDeliveryCommit(db: DB, op: Id, at: Time): DB
    requires op in db.dispatches
    requires db.dispatches[op].bound.task in db.tasks && db.dispatches[op].bound.attempt in db.attempts
    requires db.dispatches[op].bound.pair in db.sessions
  {
    var b := db.dispatches[op].bound;
    db.(tasks := db.tasks[b.task := db.tasks[b.task].(state := HumanRequired)],
        attempts := db.attempts[b.attempt :=
          db.attempts[b.attempt].(ended := Some(at), disposition := Some(UncertainDeliveryCrash), quarantined := true)],
        dispatches := db.dispatches[op := db.dispatches[op].(unknown := true)],
        sessions := WithQuarantine(db.sessions, b.pair),
        log := db.log + [
          TaskTransitionEvent(b.pair, b.task, b.attempt, Dispatched, Failed, Some(op)),
          DeliveryQuarantineEvent(op, b.pair, b.task, b.attempt, b.session, b.gen),
          TaskTransitionEvent(b.pair, b.task, b.attempt, Failed, HumanRequired, Some(op))])
  }

  // --- AtomicTerminalTransition -----------------------------------------------------------

  predicate DoubleQuarantine(why: Disposition) {
    why.PreSendIdentityMismatch? || why.StaleExecutionGeneration? || why.SessionAbsent?
  }

  predicate TerminalAdmits(db: DB, task: Id, from: TaskState, attempt: Id, why: Disposition) {
    && (from.Running? || from.Dispatched?)
    && CurrentOpen(db, task, attempt)
    && db.tasks[task].state == from
    && var l := db.attempts[attempt].lineage;
    && (DoubleQuarantine(why) ==> SessionIs(db.sessions, db.tasks[task].pair, l.session, l.gen))
    && AuditLineage(db, db.tasks[task].pair, task, l.contract, attempt)
  }

  function TerminalCommit(db: DB, task: Id, from: TaskState, attempt: Id, why: Disposition, at: Time): DB
    requires task in db.tasks && attempt in db.attempts
    requires DoubleQuarantine(why) ==> db.tasks[task].pair in db.sessions
  {
    var pair := db.tasks[task].pair;
    var a := db.attempts[attempt];
    db.(tasks := db.tasks[task := db.tasks[task].(state := Failed)],
        attempts := db.attempts[attempt :=
          a.(ended := Some(at), disposition := Some(why), quarantined := DoubleQuarantine(why) || a.quarantined)],
        sessions := if DoubleQuarantine(why) then WithQuarantine(db.sessions, pair) else db.sessions,
        log := db.log + [TaskTransitionEvent(pair, task, attempt, from, Failed, None)])
  }

  // --- AtomicAttemptClosureTransition -------------------------------------------------------

  predicate ClosureAdmits(db: DB, task: Id, attempt: Id) {
    && CurrentOpen(db, task, attempt)
    && db.tasks[task].state.Blocked?
    && AuditLineage(db, db.tasks[task].pair, task, db.attempts[attempt].lineage.contract, attempt)
  }

  function ClosureCommit(db: DB, task: Id, attempt: Id, at: Time): DB
    requires task in db.tasks && attempt in db.attempts
  {
    db.(tasks := db.tasks[task := db.tasks[task].(state := HumanRequired)],
        attempts := db.attempts[attempt := db.attempts[attempt].(ended := Some(at), disposition := Some(AoBlockedEscalated))],
        log := db.log + [Note(BlockedEscalatedNote, attempt)])
  }
}
