/** The dispatch transactions as the store runs them: a working copy is checked and updated
    statement by statement, and only COMMIT installs it; every early return is a rollback. */
module DispatchStore {
  import opened Domain
  import opened Tables
  import opened TaskTransactions
  import opened DispatchTransactions

  method PrepareBoundDispatch(s: Store, task: Id, contract: Id, attempt: Id, op: Id, session: Id, gen: Id) returns (err: Error)
    modifies s
    ensures err.Nil? <==> PrepareAdmits(old(s.db), task, contract, attempt, op, session, gen)
    ensures s.db == if err.Nil? then PrepareCommit(old(s.db), task, contract, attempt, op, session, gen) else old(s.db)
  {
    var tx := s.db;
    // 1. claim: READY -> DISPATCHED, current_attempt + 1
    if task !in tx.tasks { return NotFound; }
    if !tx.tasks[task].state.Ready? { return StateConflict; }
    var pair, n := tx.tasks[task].pair, tx.tasks[task].current + 1;
    tx := tx.(tasks := tx.tasks[task := Task(pair, Dispatched, n)]);
    // 2-3. Pair guards; the lane check excludes the claimed task itself
    if UnresolvedRestore(tx.restores, pair) || UnresolvedProvision(tx.provisions, pair) { return Quarantined; }
    assert forall t | t in s.db.tasks && t != task :: t in tx.tasks && tx.tasks[t] == s.db.tasks[t];
    assert LaneBusy(s.db.tasks, pair, task) <==> LaneBusy(tx.tasks, pair, task);
    if LaneBusy(tx.tasks, pair, task) { return StateConflict; }
    // 4-5. latest owned revision, frozen if it was not
    if contract !in tx.contracts { return NotFound; }
    if !IsLatest(tx.contracts, contract, task) { return StateConflict; }
    if !tx.contracts[contract].frozen {
      tx := tx.(contracts := tx.contracts[contract := tx.contracts[contract].(frozen := true)]);
    }
    assert tx.contracts == s.db.contracts[contract := s.db.contracts[contract].(frozen := true)];
    // 6. the immutable snapshot of a clean current session
    if pair !in tx.sessions { return NotFound; }
    if !SessionIs(tx.sessions, pair, session, gen) { return NotFound; }
    if tx.sessions[pair].quarantined { return Quarantined; }
    if exists a | a in tx.attempts :: tx.attempts[a].lineage.task == task && tx.attempts[a].quarantined { return Quarantined; }
    if attempt in tx.attempts || exists a | a in tx.attempts :: HasNumber(tx.attempts, a, task, n) { return StateConflict; }
    tx := tx.(attempts := tx.attempts[attempt := Attempt(Lineage(task, contract, n, session, gen), None, None, false)]);
    if op in tx.dispatches || exists d | d in tx.dispatches :: tx.dispatches[d].bound.attempt == attempt { return StateConflict; }
    tx := tx.(dispatches := tx.dispatches[op := Dispatch(Binding(attempt, pair, task, session, gen), DispatchBound, None, false)],
              log := tx.log + [Note(DispatchBoundNote, op)]);
    s.db := tx;
    return Nil;
  }

  method RecordPreSendHold(s: Store, op: Id, hold: Disposition) returns (err: Error)
    modifies s
    ensures err.Nil? <==> (hold.RecoveryPending? || hold.PreSendProtocolUnverified?)
                          && (HoldReplayed(old(s.db), op, hold) || HoldAdmits(old(s.db), op, hold))
    ensures s.db == if HoldAdmits(old(s.db), op, hold) then HoldCommit(old(s.db), op, hold) else old(s.db)
  {
    if !hold.RecoveryPending? && !hold.PreSendProtocolUnverified? { return Invalid; }
    var tx := s.db;
    if op !in tx.dispatches || tx.dispatches[op].bound.attempt !in tx.attempts { return NotFound; }
    var b := tx.dispatches[op].bound;
    var seen := tx.attempts[b.attempt].disposition;
    if !tx.dispatches[op].stage.DispatchBound? { return StateConflict; }
    if seen.Some? {
      if seen.value == hold { return Nil; }
      if seen.value.PreSendProtocolUnverified? || !hold.PreSendProtocolUnverified? { return StateConflict; }
    }
    if !AuditLineage(tx, b.pair, b.task, tx.attempts[b.attempt].lineage.contract, b.attempt) { return LineageMismatch; }
    tx := tx.(log := tx.log + [Note(PreSendRejectedNote, op)]);
    var a := tx.attempts[b.attempt];
    if !(a.ended.None? && a.disposition == seen && a.lineage.session == b.session && a.lineage.gen == b.gen) { return StateConflict; }
    tx := tx.(attempts := tx.attempts[b.attempt := a.(disposition := Some(hold))]);
    s.db := tx;
    return Nil;
  }

  method RecordPreSendAdmissibilityRejected(s: Store, op: Id, activity: Activity) returns (err: Error)
    modifies s
    ensures err.Nil? <==> RejectAdmits(old(s.db), op, activity)
    ensures s.db == if err.Nil? then RejectCommit(old(s.db), op) else old(s.db)
  {
    if !activity.ActivityActive? && !activity.ActivityBlocked? && !activity.ActivityExited? { return Invalid; }
    var tx := s.db;
    if op !in tx.dispatches { return LineageMismatch; }
    var b := tx.dispatches[op].bound;
    if b.attempt !in tx.attempts || tx.attempts[b.attempt].ended.Some? { return LineageMismatch; }
    if !tx.dispatches[op].stage.DispatchBound? { return StateConflict; }
    if !AuditLineage(tx, b.pair, b.task, tx.attempts[b.attempt].lineage.contract, b.attempt) { return LineageMismatch; }
    tx := tx.(log := tx.log + [Note(PreSendRejectedNote, op)]);
    s.db := tx;
    return Nil;
  }

  method ResolvePreSendHold(s: Store, op: Id, attempt: Id, hold: Disposition, session: Id, gen: Id, activity: Activity, principal: Option<Id>)
    returns (err: Error)
    modifies s
    ensures err.Nil? <==> ResolveHoldAdmits(old(s.db), op, attempt, hold, session, gen, activity, principal)
    ensures s.db == if err.Nil? then ResolveHoldCommit(old(s.db), op, attempt) else old(s.db)
  {
    if (!activity.ActivityIdle? && !activity.ActivityWaitingInput?) || (!hold.RecoveryPending? && principal.None?) { return Invalid; }
    if !hold.RecoveryPending? && !hold.PreSendProtocolUnverified? { return Invalid; }
    var tx := s.db;
    if op !in tx.dispatches || attempt !in tx.attempts { return LineageMismatch; }
    var d, a := tx.dispatches[op], tx.attempts[attempt];
    if d.bound.attempt != attempt || !d.stage.DispatchBound? || d.bound.task != a.lineage.task || a.lineage.task !in tx.tasks
       || d.bound.pair != tx.tasks[a.lineage.task].pair || d.bound.session != a.lineage.session || d.bound.gen != a.lineage.gen
       || a.lineage.number != tx.tasks[a.lineage.task].current || a.ended.Some? { return LineageMismatch; }
    if a.disposition != Some(hold) || a.lineage.session != session || a.lineage.gen != gen { return StateConflict; }
    if d.bound.pair !in tx.sessions { return NotFound; }
    if !SessionIs(tx.sessions, d.bound.pair, session, gen) { return StateConflict; }
    if !AuditLineage(tx, d.bound.pair, d.bound.task, a.lineage.contract, attempt) { return LineageMismatch; }
    tx := tx.(log := tx.log + [Note(PreSendRecoveredNote, op)]);
    tx := tx.(attempts := tx.attempts[attempt := a.(disposition := None)]);
    s.db := tx;
    return Nil;
  }

  method RecordSendRequested(s: Store, op: Id, seen: Observation, activity: Activity) returns (err: Error)
    modifies s
    ensures err.Nil? <==> SendRequestedAdmits(old(s.db), op, seen, activity)
    ensures s.db == if err.Nil? then SendRequestedCommit(old(s.db), op) else old(s.db)
  {
    if (!activity.ActivityIdle? && !activity.ActivityWaitingInput?) || seen.terminated { return Invalid; }
    var tx := s.db;
    if op !in tx.dispatches || tx.dispatches[op].bound.attempt !in tx.attempts { return NotFound; }
    var b := tx.dispatches[op].bound;
    var a := tx.attempts[b.attempt];
    if !tx.dispatches[op].stage.DispatchBound? || a.disposition.Some? { return StateConflict; }
    if b.session != seen.session || b.gen != seen.gen { return LineageMismatch; }
    if !(SessionIs(tx.sessions, b.pair, b.session, b.gen) && !tx.sessions[b.pair].quarantined
         && !UnresolvedRestore(tx.restores, b.pair) && !UnresolvedProvision(tx.provisions, b.pair)
         && IsCurrent(tx.tasks, tx.attempts, b.attempt)
         && tx.tasks[a.lineage.task].pair == b.pair && tx.tasks[a.lineage.task].state.Dispatched?
         && a.ended.None? && a.lineage.session == b.session && a.lineage.gen == b.gen) { return Quarantined; }
    if !AuditLineage(tx, b.pair, b.task, a.lineage.contract, b.attempt) { return LineageMismatch; }
    tx := tx.(log := tx.log + [SendRequestedEvent(op, b.pair, b.task, b.attempt, b.session, b.gen)]);
    if tx.dispatches[op].unknown { return StateConflict; }
    tx := tx.(dispatches := tx.dispatches[op := tx.dispatches[op].(stage := SendRequested)]);
    s.db := tx;
    return Nil;
  }

  method RecordSendConfirmed(s: Store, op: Id, http200: bool, at: Time, duration: int, policy: Id) returns (err: Error)
    modifies s
    ensures err.Nil? <==> SendConfirmedAdmits(old(s.db), op, http200, at, duration)
    ensures s.db == if err.Nil? then SendConfirmedCommit(old(s.db), op, at, duration, policy) else old(s.db)
  {
    if !http200 || duration <= 0 { return Invalid; }
    var deadline := at + duration;
    if deadline <= at || at < 0 || deadline >= TIME_LIMIT { return StateConflict; }
    var tx := s.db;
    if op !in tx.dispatches { return NotFound; }
    var b := tx.dispatches[op].bound;
    if b.task !in tx.tasks || b.attempt !in tx.attempts || b.pair !in tx.sessions { return NotFound; }
    var a := tx.attempts[b.attempt];
    if !tx.dispatches[op].stage.SendRequested? { return StateConflict; }
    if !tx.tasks[b.task].state.Dispatched? || tx.tasks[b.task].current != a.lineage.number
       || !SessionIs(tx.sessions, b.pair, b.session, b.gen) { return LineageMismatch; }
    if a.ended.Some? { return LineageMismatch; }
    // INSERT of the budget: its trigger, primary key and unique operation
    if !(CurrentOpen(tx, a.lineage.task, b.attempt) && tx.tasks[a.lineage.task].state.Dispatched? && tx.dispatches[op].confirmedAt.None?) {
      return StateConflict;
    }
    if b.attempt in tx.budgets || exists k | k in tx.budgets :: tx.budgets[k].op == op { return StateConflict; }
    tx := tx.(budgets := tx.budgets[b.attempt := Budget(op, at, deadline, duration, policy, false)]);
    if !AuditLineage(tx, b.pair, b.task, a.lineage.contract, b.attempt) { return LineageMismatch; }
    tx := tx.(log := tx.log + [SendConfirmedEvent(op, b.pair, b.task, b.attempt)]);
    if tx.dispatches[op].unknown { return StateConflict; }
    tx := tx.(dispatches := tx.dispatches[op := tx.dispatches[op].(stage := SendConfirmed, confirmedAt := Some(at))]);
    s.db := tx;
    return Nil;
  }

  method RecordUnknownDelivery(s: Store, op: Id, at: Time) returns (err: Error)
    modifies s
    ensures err.Nil? <==> UnknownDeliveryAdmits(old(s.db), op)
    ensures s.db == if err.Nil? then UnknownDeliveryCommit(old(s.db), op, at) else old(s.db)
  {
    var tx := s.db;
    if op !in tx.dispatches || tx.dispatches[op].bound.attempt !in tx.attempts { return NotFound; }
    var b := tx.dispatches[op].bound;
    if !tx.dispatches[op].stage.SendRequested? { return StateConflict; }
    if b.task !in tx.tasks || !tx.tasks[b.task].state.Dispatched? { return StateConflict; }
    if !AuditLineage(tx, b.pair, b.task, tx.attempts[b.attempt].lineage.contract, b.attempt) { return LineageMismatch; }
    tx := tx.(log := tx.log + [TaskTransitionEvent(b.pair, b.task, b.attempt, Dispatched, Failed, Some(op))]);
    tx := tx.(log := tx.log + [DeliveryQuarantineEvent(op, b.pair, b.task, b.attempt, b.session, b.gen)]);
    tx := tx.(log := tx.log + [TaskTransitionEvent(b.pair, b.task, b.attempt, Failed, HumanRequired, Some(op))]);
    // five CAS updates
    tx := tx.(tasks := tx.tasks[b.task := tx.tasks[b.task].(state := Failed)]);
    tx := tx.(tasks := tx.tasks[b.task := tx.tasks[b.task].(state := HumanRequired)]);
    if !CurrentOpen(tx, b.task, b.attempt) { return LineageMismatch; }
    tx := tx.(attempts := tx.attempts[b.attempt :=
      tx.attempts[b.attempt].(ended := Some(at), disposition := Some(UncertainDeliveryCrash), quarantined := true)]);
    if tx.dispatches[op].unknown { return StateConflict; }
    tx := tx.(dispatches := tx.dispatches[op := tx.dispatches[op].(unknown := true)]);
    if !SessionIs(tx.sessions, b.pair, b.session, b.gen) { return StateConflict; }
    tx := tx.(sessions := WithQuarantine(tx.sessions, b.pair));
    s.db := tx;
    return Nil;
  }

  method AtomicTerminalTransition(s: Store, task: Id, from: TaskState, attempt: Id, why: Disposition, at: Time) returns (err: Error)
    modifies s
    ensures err.Nil? <==> TerminalAdmits(old(s.db), task, from, attempt, why)
    ensures s.db == if err.Nil? then TerminalCommit(old(s.db), task, from, attempt, why, at) else old(s.db)
  {
    if !from.Running? && !from.Dispatched? { return Invalid; }
    var tx := s.db;
    if !CurrentOpen(tx, task, attempt) { return LineageMismatch; }
    var l, pair := tx.attempts[attempt].lineage, tx.tasks[task].pair;
    if tx.tasks[task].state != from { return StateConflict; }
    tx := tx.(tasks := tx.tasks[task := tx.tasks[task].(state := Failed)]);
    var a := tx.attempts[attempt].(ended := Some(at), disposition := Some(why));
    tx := tx.(attempts := tx.attempts[attempt := if DoubleQuarantine(why) then a.(quarantined := true) else a]);
    if DoubleQuarantine(why) {
      if !SessionIs(tx.sessions, pair, l.session, l.gen) { return LineageMismatch; }
      tx := tx.(sessions := WithQuarantine(tx.sessions, pair));
    }
    if !AuditLineage(tx, pair, task, l.contract, attempt) { return LineageMismatch; }
    tx := tx.(log := tx.log + [TaskTransitionEvent(pair, task, attempt, from, Failed, None)]);
    s.db := tx;
    return Nil;
  }

  method AtomicAttemptClosureTransition(s: Store, task: Id, attempt: Id, at: Time) returns (err: Error)
    modifies s
    ensures err.Nil? <==> ClosureAdmits(old(s.db), task, attempt)
    ensures s.db == if err.Nil? then ClosureCommit(old(s.db), task, attempt, at) else old(s.db)
  {
    var tx := s.db;
    if !CurrentOpen(tx, task, attempt) { return LineageMismatch; }
    if !tx.tasks[task].state.Blocked? { return StateConflict; }
    tx := tx.(tasks := tx.tasks[task := tx.tasks[task].(state := HumanRequired)]);
    tx := tx.(attempts := tx.attempts[attempt := tx.attempts[attempt].(ended := Some(at), disposition := Some(AoBlockedEscalated))]);
    if !AuditLineage(tx, tx.tasks[task].pair, task, tx.attempts[attempt].lineage.contract, attempt) { return LineageMismatch; }
    tx := tx.(log := tx.log + [Note(BlockedEscalatedNote, attempt)]);
    s.db := tx;
    return Nil;
  }
}
