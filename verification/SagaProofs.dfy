/** The saga part of the invariant holds in every state of every saga run. */
module SagaProofs {
  import opened Domain
  import opened TaskTransactions
  import opened DispatchTransactions
  import opened RecoveryTransactions
  import opened StopTransactions
  import opened RestoreTransactions
  import opened ClearanceTransactions
  import opened Invariants
  import opened DispatchProofs
  import opened Steps
  import TaskProofs
  import RecoveryProofs
  import StopProofs
  import RestoreProofs
  import ClearanceProofs
  import StepProofs

  // --- each transaction, from the whole invariant ----------------------------------------

  lemma CreateSaga(db: DB, task: Id, pair: Id)
    requires SagaInv(db) && CreateTaskAdmits(db, task)
    ensures SagaCore(CreateTaskCommit(db, task, pair))
  { TaskProofs.CreateSaga(db, task, pair); }

  lemma TransitionSaga(db: DB, task: Id, from: TaskState, to: TaskState)
    requires SagaInv(db) && TransitionAdmits(db, task, from, to) && !from.Dispatched? && !from.Running?
    ensures SagaCore(TransitionCommit(db, task, to))
  { TaskProofs.TransitionSaga(db, TransitionCommit(db, task, to), task, from, to); }

  /** Steps that touch neither tasks, attempts, dispatch operations nor live stops. */
  lemma IdleSaga(db: DB, e: DB)
    requires SagaInv(db) && e.tasks == db.tasks && e.attempts == db.attempts && e.dispatches == db.dispatches && e.stops == db.stops
    ensures SagaCore(e)
  {}

  lemma ClearSaga(db: DB, rq: Request)
    requires SagaInv(db) && ClearAdmits(db, rq)
    ensures SagaCore(ClearCommit(db, rq))
  { ClearanceProofs.ClearSaga(db, ClearCommit(db, rq), rq); }

  lemma PrepareSaga(db: DB, e: DB, x: Allocation)
    requires SagaInv(db) && PrepareStep(db, e, x)
    ensures SagaCore(e)
  {
    PrepareSends(db, e, x);
    PrepareLiveStops(db, e, x);
  }

  lemma HeldSaga(db: DB, e: DB, a: Id, why: Option<Disposition>)
    requires SagaInv(db) && DispositionStep(db, e, a, why)
    ensures SagaCore(e)
  { DispositionSaga(db, e, a, why); }

  lemma SendRequestedSaga(db: DB, op: Id, seen: Observation, activity: Activity)
    requires SagaInv(db) && SendRequestedAdmits(db, op, seen, activity)
    ensures SagaCore(SendRequestedCommit(db, op))
  {
    SendRequestedBudgets(db, op, seen, activity);
    StageSaga(db, SendRequestedCommit(db, op), op);
  }

  lemma SendConfirmedSaga(db: DB, op: Id, http200: bool, at: Time, duration: int, policy: Id)
    requires SagaInv(db) && SendConfirmedAdmits(db, op, http200, at, duration)
    ensures SagaCore(SendConfirmedCommit(db, op, at, duration, policy))
  {
    SendConfirmedBudgets(db, op, http200, at, duration, policy);
    StageSaga(db, SendConfirmedCommit(db, op, at, duration, policy), op);
  }

  lemma DeliverySaga(db: DB, op: Id, at: Time)
    requires SagaInv(db) && UnknownDeliveryAdmits(db, op)
    ensures SagaCore(UnknownDeliveryCommit(db, op, at))
  { UnknownDeliverySaga(db, UnknownDeliveryCommit(db, op, at), op, at); }

  lemma ClosingSaga(db: DB, task: Id, from: TaskState, attempt: Id, why: Disposition, at: Time)
    requires SagaInv(db) && TerminalAdmits(db, task, from, attempt, why) && from.Dispatched?
    ensures SagaCore(TerminalCommit(db, task, from, attempt, why, at))
  { TerminalSaga(db, TerminalCommit(db, task, from, attempt, why, at), task, from, attempt, why, at); }

  lemma EscalatedSaga(db: DB, task: Id, attempt: Id, at: Time)
    requires SagaInv(db) && ClosureAdmits(db, task, attempt)
    ensures SagaCore(ClosureCommit(db, task, attempt, at))
  { ClosureSaga(db, ClosureCommit(db, task, attempt, at), task, attempt, at); }

  lemma ObserveSaga(db: DB, x: Execution, seen: PostSend, at: Time)
    requires SagaInv(db) && ObserveAdmits(db, x, seen)
    ensures SagaCore(ObserveCommit(db, x, seen, at))
  { RecoveryProofs.ObserveSaga(db, ObserveCommit(db, x, seen, at), x, seen, at); }

  lemma ReserveStopSaga(db: DB, op: Id, t: StopTarget)
    requires SagaInv(db) && ReserveStopAdmits(db, op, t)
    ensures SagaCore(ReserveStopCommit(db, op, t))
  { StopProofs.ReserveSaga(db, ReserveStopCommit(db, op, t), op, t); }

  lemma CallAcceptedSaga(db: DB, op: Id, callAt: Time, deadline: Time)
    requires SagaInv(db) && CallAcceptedAdmits(db, op, callAt, deadline)
    ensures SagaCore(CallAcceptedCommit(db, op, callAt, deadline))
  {
    var e := CallAcceptedCommit(db, op, callAt, deadline);
    StopProofs.CallAcceptedLocal(db, op, callAt, deadline);
    StopProofs.StopOnlySaga(db, e, op, e.stops[op]);
  }

  lemma OutcomeSaga(db: DB, op: Id, o: Outcome)
    requires SagaInv(db) && StopOutcomeAdmits(db, op, o)
    ensures SagaCore(StopOutcomeCommit(db, op, o))
  { StopProofs.OutcomeSaga(db, StopOutcomeCommit(db, op, o), op, o); }

  lemma AbandonedSaga(db: DB, op: Id, session: Id, gen: Id, at: Time)
    requires SagaInv(db) && AbandonedAdmits(db, op, session, gen)
    ensures SagaCore(AbandonedCommit(db, op, at))
  {
    var e := AbandonedCommit(db, op, at);
    StopProofs.AbandonedLocal(db, op, session, gen, at);
    StopProofs.StopOnlySaga(db, e, op, e.stops[op]);
  }

  lemma AcceptRiskSaga(db: DB, d: Decision)
    requires SagaInv(db) && AcceptRiskAdmits(db, d)
    ensures SagaCore(AcceptRiskCommit(db, d))
  {
    var e := AcceptRiskCommit(db, d);
    StopProofs.AcceptRiskLocal(db, d);
    StopProofs.StopOnlySaga(db, e, d.stop, e.stops[d.stop]);
  }

  lemma ReserveRestoreSaga(db: DB, op: Id, tuple: RestoreTuple)
    requires SagaInv(db) && ReserveRestoreAdmits(db, op, tuple)
    ensures SagaCore(ReserveRestoreCommit(db, op, tuple))
  { RestoreProofs.ReserveSaga(db, op, tuple); }

  lemma InterruptedSaga(db: DB, op: Id)
    requires SagaInv(db) && InterruptedAdmits(db, op)
    ensures SagaCore(InterruptedCommit(db, op))
  { RestoreProofs.InterruptedSaga(db, op); }

  lemma CleanupSaga(db: DB, op: Id, t: StopTarget, principal: Id, seen: Option<Observation>)
    requires SagaInv(db) && ClaimCleanupAdmits(db, op, t, principal, seen)
    ensures SagaCore(ClaimCleanupCommit(db, op, t))
  { RestoreProofs.UntouchedSaga(db, ClaimCleanupCommit(db, op, t)); }

  // --- each group --------------------------------------------------------------------------

  lemma TaskSaga(db: DB, s: TaskOp)
    requires SagaInv(db) && TaskAllowed(db, s) && SagaStep(TaskStep(s))
    ensures SagaCore(TaskEffect(db, s))
  {
    hide SagaInv, SagaCore;
    match s
    case CreateTask(task, pair) => CreateSaga(db, task, pair);
    case InsertContract(_, _, _, _, _) => IdleSaga(db, TaskEffect(db, s));
    case Transition(task, from, to) => TransitionSaga(db, task, from, to);
  }

  lemma PairSaga(db: DB, s: PairOp)
    requires SagaInv(db) && PairAllowed(db, s)
    ensures SagaCore(PairEffect(db, s))
  {
    hide SagaInv, SagaCore;
    match s
    case Clear(rq) => ClearSaga(db, rq);
    case _ => IdleSaga(db, PairEffect(db, s));
  }

  lemma DispatchSaga(db: DB, s: DispatchOp)
    requires SagaInv(db) && DispatchAllowed(db, s)
    ensures SagaCore(DispatchEffect(db, s))
  {
    hide SagaInv, SagaCore;
    match s
    case Prepare(x) => PrepareSaga(db, DispatchEffect(db, s), x);
    case Hold(op, hold) => HeldSaga(db, HoldCommit(db, op, hold), db.dispatches[op].bound.attempt, Some(hold));
    case Reject(op, _) => IdleSaga(db, RejectCommit(db, op));
    case ResolveHold(op, attempt, _, _, _, _, _) => HeldSaga(db, ResolveHoldCommit(db, op, attempt), attempt, None);
    case RequestSend(op, seen, activity) => SendRequestedSaga(db, op, seen, activity);
    case ConfirmSend(op, http200, at, duration, policy) => SendConfirmedSaga(db, op, http200, at, duration, policy);
    case UnknownDelivery(op, at) => DeliverySaga(db, op, at);
  }

  lemma ExecutionSaga(db: DB, s: ExecutionOp)
    requires SagaInv(db) && ExecutionAllowed(db, s) && SagaStep(ExecutionStep(s))
    ensures SagaCore(ExecutionEffect(db, s))
  {
    hide SagaInv, SagaCore;
    match s
    case Terminal(task, from, attempt, why, at) => ClosingSaga(db, task, from, attempt, why, at);
    case Closure(task, attempt, at) => EscalatedSaga(db, task, attempt, at);
    case RecordOutage(x) => HeldSaga(db, OutageCommit(db, x), x.attempt, Some(RecoveryPending));
    case Observe(x, seen, at) => ObserveSaga(db, x, seen, at);
  }

  lemma StopSaga(db: DB, s: StopOp)
    requires SagaInv(db) && StopAllowed(db, s)
    ensures SagaCore(StopEffect(db, s))
  {
    hide SagaInv, SagaCore;
    match s
    case ReserveStop(op, t) => ReserveStopSaga(db, op, t);
    case CallAccepted(op, callAt, deadline) => CallAcceptedSaga(db, op, callAt, deadline);
    case CommitOutcome(op, o) => OutcomeSaga(db, op, o);
    case ClassifyAbandoned(op, session, gen, at) => AbandonedSaga(db, op, session, gen, at);
    case AcceptRisk(d) => AcceptRiskSaga(db, d);
  }

  lemma RestoreSaga(db: DB, s: RestoreOp)
    requires SagaInv(db) && RestoreAllowed(db, s)
    ensures SagaCore(RestoreEffect(db, s))
  {
    hide SagaInv, SagaCore;
    match s
    case ReserveRestore(op, tuple) => ReserveRestoreSaga(db, op, tuple);
    case ClassifyInterrupted(op) => InterruptedSaga(db, op);
    case ClaimCleanup(op, t, principal, seen) => CleanupSaga(db, op, t, principal, seen);
    case _ => IdleSaga(db, RestoreEffect(db, s));
  }

  /** Every saga step keeps the saga invariant. */
  lemma StepKeepsSaga(db: DB, s: Step)
    requires SagaInv(db) && Allowed(db, s) && SagaStep(s)
    ensures SagaInv(Effect(db, s))
  {
    hide SagaInv, SagaCore, Inv, TaskEffect, PairEffect, DispatchEffect, ExecutionEffect, StopEffect, RestoreEffect;
    hide TaskAllowed, PairAllowed, DispatchAllowed, ExecutionAllowed, StopAllowed, RestoreAllowed;
    SagaParts(db);
    StepProofs.StepKeeps(db, s);
    match s {
      case TaskStep(t) => TaskSaga(db, t);
      case PairStep(t) => PairSaga(db, t);
      case DispatchStep(t) => DispatchSaga(db, t);
      case ExecutionStep(t) => ExecutionSaga(db, t);
      case StopStep(t) => StopSaga(db, t);
      case RestoreStep(t) => RestoreSaga(db, t);
    }
    SagaWhole(Effect(db, s));
  }

  lemma SagaParts(db: DB)
    requires SagaInv(db)
    ensures Inv(db) && SagaCore(db)
  {}

  lemma SagaWhole(db: DB)
    requires Inv(db) && SagaCore(db)
    ensures SagaInv(db)
  {}
}
