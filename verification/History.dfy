/** What no transaction ever takes back: the rows of every table only move forward. */
module History {
  import opened Domain
  import opened DispatchTransactions
  import opened RecoveryTransactions
  import opened StopTransactions
  import opened RestoreTransactions
  import opened ClearanceTransactions
  import opened Steps
  import StopProofs

  // --- row orders ----------------------------------------------------------------------

  predicate TaskForward(was: Task, now: Task) { now.pair == was.pair && was.current <= now.current }

  predicate ContractForward(was: Contract, now: Contract) { now == was || now == was.(frozen := true) }

  /** The binding never changes and a closed attempt stays closed at the same instant. */
  predicate AttemptForward(was: Attempt, now: Attempt) {
    && now.lineage == was.lineage
    && (was.ended.Some? ==> now.ended == was.ended && now.disposition == was.disposition)
  }

  function StageRank(s: DispatchStage): nat {
    match s
    case DispatchBound => 0
    case SendRequested => 1
    case SendConfirmed => 2
  }

  predicate DispatchForward(was: Dispatch, now: Dispatch) {
    && now.bound == was.bound && StageRank(was.stage) <= StageRank(now.stage) <= StageRank(was.stage) + 1
    && (was.confirmedAt.Some? ==> now.confirmedAt == was.confirmedAt)
    && (was.unknown ==> now == was)
  }

  /** The row leaves IN_FLIGHT once; after that only a risk acceptance can follow. */
  predicate StopForward(was: Stop, now: Stop) {
    && now.target == was.target
    && ValidStopTransition(was.stage, now.stage)
    && (was.callAt.Some? ==> now.callAt == was.callAt)
    && (was.deadline.Some? ==> now.deadline == was.deadline)
    && (!was.resolution.InFlight? ==>
          || now == was
          || (now == was.(resolution := RiskAccepted, resolvedAt := now.resolvedAt)
              && was.resolution !in {TerminationConfirmed, TargetAbsent, RiskAccepted}))
  }

  /** trg_restore_op_forward_only: one UPDATE of a restore row that the trigger lets through. */
  predicate TriggerAllows(was: Restore, now: Restore) {
    && now.tuple == was.tuple
    && now.version == was.version + 1
    && (was.stage.RestoreConfirmed? ==> now.stage.RestoreConfirmed? && now.http200At == was.http200At && now.observed == was.observed)
    && (was.stage.RestoreRequested? && now.stage.RestoreConfirmed? ==> was.resolution.RestoreInFlight?)
    && !was.resolution.RestoreResolved?
    && (now.resolution == was.resolution || match was.resolution
          case RestoreInFlight => now.resolution.RestoreOutcomeUnknown? || now.resolution.RecoveryClaimed?
          case RestoreOutcomeUnknown => now.resolution.RecoveryClaimed?
          case RecoveryClaimed => now.resolution.CleanupClaimed? || now.resolution.RestoreResolved?
          case CleanupClaimed => now.resolution.RestoreResolved?
          case RestoreResolved => false)
  }

  /** At most two UPDATEs of one transaction. */
  ghost predicate RestoreForward(was: Restore, now: Restore) {
    now == was || TriggerAllows(was, now) || exists mid :: TriggerAllows(was, mid) && TriggerAllows(mid, now)
  }

  // --- tables -----------------------------------------------------------------------------

  predicate LineagesKept(db: DB, e: DB) {
    && (forall t | t in db.tasks :: t in e.tasks && TaskForward(db.tasks[t], e.tasks[t]))
    && (forall c | c in db.contracts :: c in e.contracts && ContractForward(db.contracts[c], e.contracts[c]))
    && (forall a | a in db.attempts :: a in e.attempts && AttemptForward(db.attempts[a], e.attempts[a]))
  }

  ghost predicate OperationsKept(db: DB, e: DB) {
    && (forall d | d in db.dispatches :: d in e.dispatches && DispatchForward(db.dispatches[d], e.dispatches[d]))
    && (forall a | a in db.budgets :: a in e.budgets && e.budgets[a] == db.budgets[a])
    && (forall o | o in db.stops :: o in e.stops && StopForward(db.stops[o], e.stops[o]))
    && (forall r | r in db.restores :: r in e.restores && RestoreForward(db.restores[r], e.restores[r]))
    && db.log <= e.log
  }

  ghost predicate Kept(db: DB, e: DB) { LineagesKept(db, e) && OperationsKept(db, e) }

  lemma TaskHistory(db: DB, s: TaskOp)
    requires TaskAllowed(db, s)
    ensures Kept(db, TaskEffect(db, s))
  {}

  lemma ClearHistory(db: DB, rq: Request)
    requires ClearAdmits(db, rq)
    ensures Kept(db, ClearCommit(db, rq))
  {
    assert db.log <= db.log + (ClearedEvents(rq, rq.attempts) + [ClearedEvent(rq, rq.session)]) == ClearCommit(db, rq).log;
  }

  lemma PairHistory(db: DB, s: PairOp)
    requires PairAllowed(db, s)
    ensures Kept(db, PairEffect(db, s))
  {
    if s.Clear? {
      hide LineagesKept, OperationsKept, ClearAdmits, ClearCommit;
      ClearHistory(db, s.rq);
    }
  }

  lemma PrepareHistory(db: DB, x: Allocation)
    requires PrepareAdmits(db, x.task, x.contract, x.attempt, x.op, x.session, x.gen)
    ensures Kept(db, PrepareCommit(db, x.task, x.contract, x.attempt, x.op, x.session, x.gen))
  {}

  lemma HoldHistory(db: DB, op: Id, hold: Disposition)
    requires HoldAdmits(db, op, hold)
    ensures Kept(db, HoldCommit(db, op, hold))
  {}

  lemma ResolveHoldHistory(db: DB, op: Id, attempt: Id, hold: Disposition, session: Id, gen: Id, activity: Activity, principal: Option<Id>)
    requires ResolveHoldAdmits(db, op, attempt, hold, session, gen, activity, principal)
    ensures Kept(db, ResolveHoldCommit(db, op, attempt))
  {}

  lemma SendHistory(db: DB, op: Id, seen: Observation, activity: Activity)
    requires SendRequestedAdmits(db, op, seen, activity)
    ensures Kept(db, SendRequestedCommit(db, op))
  {}

  lemma ConfirmHistory(db: DB, op: Id, http200: bool, at: Time, duration: int, policy: Id)
    requires SendConfirmedAdmits(db, op, http200, at, duration)
    ensures Kept(db, SendConfirmedCommit(db, op, at, duration, policy))
  {}

  lemma UnknownHistory(db: DB, op: Id, at: Time)
    requires UnknownDeliveryAdmits(db, op)
    ensures Kept(db, UnknownDeliveryCommit(db, op, at))
  {}

  lemma DispatchHistory(db: DB, s: DispatchOp)
    requires DispatchAllowed(db, s)
    ensures Kept(db, DispatchEffect(db, s))
  {
    hide LineagesKept, OperationsKept;
    match s
    case Prepare(x) => PrepareHistory(db, x);
    case Hold(op, hold) => HoldHistory(db, op, hold);
    case Reject(op, _) => LogHistory(db, RejectCommit(db, op));
    case ResolveHold(op, attempt, hold, session, gen, activity, principal) =>
      ResolveHoldHistory(db, op, attempt, hold, session, gen, activity, principal);
    case RequestSend(op, seen, activity) => SendHistory(db, op, seen, activity);
    case ConfirmSend(op, http200, at, duration, policy) => ConfirmHistory(db, op, http200, at, duration, policy);
    case UnknownDelivery(op, at) => UnknownHistory(db, op, at);
  }

  lemma LogHistory(db: DB, e: DB)
    requires e == db.(log := e.log) && db.log <= e.log
    ensures Kept(db, e)
  {}

  lemma TerminalHistory(db: DB, task: Id, from: TaskState, attempt: Id, why: Disposition, at: Time)
    requires TerminalAdmits(db, task, from, attempt, why)
    ensures Kept(db, TerminalCommit(db, task, from, attempt, why, at))
  {}

  lemma ClosureHistory(db: DB, task: Id, attempt: Id, at: Time)
    requires ClosureAdmits(db, task, attempt)
    ensures Kept(db, ClosureCommit(db, task, attempt, at))
  {}

  lemma OutageHistory(db: DB, x: Execution)
    requires OutageAdmits(db, x)
    ensures Kept(db, OutageCommit(db, x))
  {}

  lemma ObserveHistory(db: DB, x: Execution, seen: PostSend, at: Time)
    requires ObserveAdmits(db, x, seen)
    ensures Kept(db, ObserveCommit(db, x, seen, at))
  {
    ObservedOpen(db, x, seen, at);
    ObservedHistory(db, ObserveCommit(db, x, seen, at), x, seen, at);
  }

  lemma ObservedOpen(db: DB, x: Execution, seen: PostSend, at: Time)
    requires ExecutionUnchanged(db, x)
    ensures x.attempt in db.attempts && AttemptForward(db.attempts[x.attempt], ObserveRow(db.attempts[x.attempt], x, seen, at))
  {}

  /** One task state, one open attempt row and the log. */
  lemma ObservedHistory(db: DB, e: DB, x: Execution, seen: PostSend, at: Time)
    requires x.task in db.tasks && x.attempt in db.attempts && x.pair in db.sessions
    requires e == ObserveCommit(db, x, seen, at)
    requires AttemptForward(db.attempts[x.attempt], ObserveRow(db.attempts[x.attempt], x, seen, at))
    ensures Kept(db, e)
  {
    if !ObserveIgnored(x, seen) {
      assert e.tasks == db.tasks[x.task := db.tasks[x.task].(state := ObservedState(x, seen))];
      assert e.log == db.log + ObserveEvents(x, seen);
    }
  }

  lemma ExecutionHistory(db: DB, s: ExecutionOp)
    requires ExecutionAllowed(db, s)
    ensures Kept(db, ExecutionEffect(db, s))
  {
    hide LineagesKept, OperationsKept;
    match s
    case Terminal(task, from, attempt, why, at) => TerminalHistory(db, task, from, attempt, why, at);
    case Closure(task, attempt, at) => ClosureHistory(db, task, attempt, at);
    case RecordOutage(x) => OutageHistory(db, x);
    case Observe(x, seen, at) => ObserveHistory(db, x, seen, at);
  }

  lemma ReserveStopHistory(db: DB, op: Id, t: StopTarget)
    requires ReserveStopAdmits(db, op, t)
    ensures Kept(db, ReserveStopCommit(db, op, t))
  {}

  lemma CallAcceptedHistory(db: DB, op: Id, callAt: Time, deadline: Time)
    requires CallAcceptedAdmits(db, op, callAt, deadline)
    ensures Kept(db, CallAcceptedCommit(db, op, callAt, deadline))
  {}

  lemma CloseLiveHistory(db: DB, op: Id, t: StopTarget, o: Outcome)
    requires CloseLiveAdmits(db, t)
    ensures LineagesKept(db, CloseLive(db, op, t, o))
  {}

  lemma TouchRuntimeHistory(db: DB, t: StopTarget, o: Outcome)
    requires t.pair in db.sessions
    ensures LineagesKept(db, TouchRuntime(db, t, o))
  {
    hide TouchRuntime;
    StopProofs.TouchRuntimeFrame(db, t, o);
  }

  lemma OutcomeHistory(db: DB, op: Id, o: Outcome)
    requires StopOutcomeAdmits(db, op, o)
    ensures Kept(db, StopOutcomeCommit(db, op, o))
  {
    var stop := db.stops[op];
    var marked := db.(stops := db.stops[op := Settle(stop, o)], log := db.log + [OutcomeEvent(op, stop, o)]);
    StopProofs.OutcomeFramed(db, StopOutcomeCommit(db, op, o), op, o);
    OutcomeOperations(db, StopOutcomeCommit(db, op, o), op, o);
    if stop.target.purpose.RunningAttemptStop? {
      CloseLiveHistory(marked, op, stop.target, o);
    } else {
      TouchRuntimeHistory(marked, stop.target, o);
    }
  }

  lemma OutcomeOperations(db: DB, e: DB, op: Id, o: Outcome)
    requires StopProofs.OutcomeFrame(db, e, op, o) && OutcomeFits(db.stops[op], o)
    ensures OperationsKept(db, e)
  {}

  lemma AbandonedHistory(db: DB, op: Id, session: Id, gen: Id, at: Time)
    requires AbandonedAdmits(db, op, session, gen)
    ensures Kept(db, AbandonedCommit(db, op, at))
  {}

  lemma AcceptRiskHistory(db: DB, d: Decision)
    requires AcceptRiskAdmits(db, d)
    ensures Kept(db, AcceptRiskCommit(db, d))
  {}

  lemma StopHistory(db: DB, s: StopOp)
    requires StopAllowed(db, s)
    ensures Kept(db, StopEffect(db, s))
  {
    hide LineagesKept, OperationsKept;
    match s
    case ReserveStop(op, t) => ReserveStopHistory(db, op, t);
    case CallAccepted(op, callAt, deadline) => CallAcceptedHistory(db, op, callAt, deadline);
    case CommitOutcome(op, o) => OutcomeHistory(db, op, o);
    case ClassifyAbandoned(op, session, gen, at) => AbandonedHistory(db, op, session, gen, at);
    case AcceptRisk(d) => AcceptRiskHistory(db, d);
  }

  /** Each resolution is a claim followed by a resolution when nobody had claimed before. */
  lemma ResolveHistory(was: Restore, basis: RestoreBasis, principal: Id, at: Time)
    requires !was.resolution.RestoreResolved?
    ensures var claimed := was.resolution.CleanupClaimed? || was.resolution.RecoveryClaimed?;
      RestoreForward(was, MarkResolved(if claimed then was else MarkClaimed(was, principal, at), basis, at))
  {
    if was.resolution.CleanupClaimed? || was.resolution.RecoveryClaimed? {
      assert TriggerAllows(was, MarkResolved(was, basis, at));
    } else {
      assert TriggerAllows(was, MarkClaimed(was, principal, at));
      assert TriggerAllows(MarkClaimed(was, principal, at), MarkResolved(MarkClaimed(was, principal, at), basis, at));
    }
  }

  /** The row a restore transaction writes. */
  function RestoreKey(s: RestoreOp): Id {
    if s.ClaimCleanup? && s.target.restore.Some? then s.target.restore.value else s.op
  }

  lemma RestoreFrame(db: DB, s: RestoreOp)
    requires RestoreAllowed(db, s)
    ensures var e := RestoreEffect(db, s); var r := RestoreKey(s);
      r in e.restores && e.restores == db.restores[r := e.restores[r]] && (r in db.restores <==> !s.ReserveRestore?)
  {}

  /** A transaction that is a single UPDATE. */
  lemma SingleUpdate(db: DB, s: RestoreOp)
    requires RestoreAllowed(db, s)
    requires s.UnknownRestore? || s.ConfirmRestore? || s.ClaimRecovery? || s.ClaimCleanup? || s.ClassifyInterrupted?
    ensures var r := RestoreKey(s); var e := RestoreEffect(db, s);
      r in db.restores && r in e.restores && TriggerAllows(db.restores[r], e.restores[r])
  {}

  lemma ConfirmedResolution(db: DB, s: RestoreOp)
    requires RestoreAllowed(db, s) && s.ResolveConfirmed?
    ensures var e := RestoreEffect(db, s); s.op in db.restores && s.op in e.restores && RestoreForward(db.restores[s.op], e.restores[s.op])
  {
    hide TriggerAllows, RestoreForward;
    ResolveHistory(db.restores[s.op], Http200Basis, s.principal, s.at);
  }

  lemma AmbiguousResolution(db: DB, s: RestoreOp)
    requires RestoreAllowed(db, s) && s.ResolveAmbiguous?
    ensures var e := RestoreEffect(db, s); s.op in db.restores && s.op in e.restores && RestoreForward(db.restores[s.op], e.restores[s.op])
  {
    hide TriggerAllows, RestoreForward;
    ResolveHistory(db.restores[s.op], s.basis, s.principal, s.at);
  }

  lemma RestoreRow(db: DB, s: RestoreOp)
    requires RestoreAllowed(db, s) && !s.ReserveRestore?
    ensures var r := RestoreKey(s); var e := RestoreEffect(db, s);
      r in db.restores && r in e.restores && RestoreForward(db.restores[r], e.restores[r])
  {
    hide RestoreAllowed, RestoreEffect, TriggerAllows;
    if s.ResolveConfirmed? {
      ConfirmedResolution(db, s);
    } else if s.ResolveAmbiguous? {
      AmbiguousResolution(db, s);
    } else {
      SingleUpdate(db, s);
    }
  }

  lemma RestoreRows(db: DB, s: RestoreOp)
    requires RestoreAllowed(db, s)
    ensures var e := RestoreEffect(db, s); forall r | r in db.restores :: r in e.restores && RestoreForward(db.restores[r], e.restores[r])
  {
    hide RestoreAllowed, RestoreEffect, TriggerAllows;
    RestoreFrame(db, s);
    if !s.ReserveRestore? { RestoreRow(db, s); }
  }

  lemma RestoreLineages(db: DB, s: RestoreOp)
    requires RestoreAllowed(db, s)
    ensures LineagesKept(db, RestoreEffect(db, s))
  {}

  lemma RestoreHistory(db: DB, s: RestoreOp)
    requires RestoreAllowed(db, s)
    ensures Kept(db, RestoreEffect(db, s))
  {
    hide LineagesKept, RestoreForward;
    RestoreRows(db, s);
    RestoreLineages(db, s);
  }

  /** Nothing any transaction of any run did is ever undone. */
  lemma StepHistory(db: DB, s: Step)
    requires Allowed(db, s)
    ensures Kept(db, Effect(db, s))
  {
    hide LineagesKept, OperationsKept, TaskEffect, PairEffect, DispatchEffect, ExecutionEffect, StopEffect, RestoreEffect;
    hide TaskAllowed, PairAllowed, DispatchAllowed, ExecutionAllowed, StopAllowed, RestoreAllowed;
    match s
    case TaskStep(t) => TaskHistory(db, t);
    case PairStep(t) => PairHistory(db, t);
    case DispatchStep(t) => DispatchHistory(db, t);
    case ExecutionStep(t) => ExecutionHistory(db, t);
    case StopStep(t) => StopHistory(db, t);
    case RestoreStep(t) => RestoreHistory(db, t);
  }
}
