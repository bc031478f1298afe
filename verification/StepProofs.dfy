/** The invariants hold in every state of every run. */
module StepProofs {
  import opened Domain
  import opened TaskTransactions
  import opened DispatchTransactions
  import opened StopTransactions
  import opened RestoreTransactions
  import opened ClearanceTransactions
  import opened Invariants
  import opened DispatchProofs
  import opened Steps
  import TaskProofs
  import RecoveryProofs
  import StopProofs
  import RestoreProofs
  import ClearanceProofs

  // --- one transaction ------------------------------------------------------------------

  lemma TaskKeeps(db: DB, s: TaskOp)
    requires Inv(db) && TaskAllowed(db, s)
    ensures Inv(TaskEffect(db, s))
  {
    hide Inv;
    match s
    case CreateTask(task, pair) => TaskProofs.CreateKeeps(db, task, pair);
    case InsertContract(id, task, revision, supersedes, baseSha) => TaskProofs.InsertKeeps(db, id, task, revision, supersedes, baseSha);
    case Transition(task, from, to) => TaskProofs.TransitionKeeps(db, TransitionCommit(db, task, to), task, from, to);
  }

  lemma PairKeeps(db: DB, s: PairOp)
    requires Inv(db) && PairAllowed(db, s)
    ensures Inv(PairEffect(db, s))
  {
    hide Inv;
    match s
    case ReserveProvision(op, pair) => TaskProofs.ReserveProvisionKeeps(db, op, pair);
    case ConfirmProvision(op, pair, row) => TaskProofs.ConfirmProvisionKeeps(db, op, pair, row);
    case FailProvision(op) => TaskProofs.FailProvisionKeeps(db, op);
    case UpdateStatus(pair, expected, quarantined, status) => TaskProofs.UpdateStatusKeeps(db, pair, expected, quarantined, status);
    case Clear(rq) => ClearanceProofs.ClearKeeps(db, ClearCommit(db, rq), rq);
    case AppendAudit(_) => LogKeeps(db, PairEffect(db, s));
  }

  lemma DispatchKeeps(db: DB, s: DispatchOp)
    requires Inv(db) && DispatchAllowed(db, s)
    ensures Inv(DispatchEffect(db, s))
  {
    hide Inv;
    match s
    case Prepare(x) => PrepareKeeps(db, DispatchEffect(db, s), x);
    case Hold(op, hold) => DispositionKeeps(db, HoldCommit(db, op, hold), db.dispatches[op].bound.attempt, Some(hold));
    case Reject(op, _) => LogKeeps(db, RejectCommit(db, op));
    case ResolveHold(op, attempt, _, _, _, _, _) => DispositionKeeps(db, ResolveHoldCommit(db, op, attempt), attempt, None);
    case RequestSend(op, seen, activity) => SendRequestedKeeps(db, op, seen, activity);
    case ConfirmSend(op, http200, at, duration, policy) => SendConfirmedKeeps(db, op, http200, at, duration, policy);
    case UnknownDelivery(op, at) => UnknownDeliveryKeeps(db, UnknownDeliveryCommit(db, op, at), op, at);
  }

  lemma ExecutionKeeps(db: DB, s: ExecutionOp)
    requires Inv(db) && ExecutionAllowed(db, s)
    ensures Inv(ExecutionEffect(db, s))
  {
    hide Inv;
    var e := ExecutionEffect(db, s);
    match s
    case Terminal(task, from, attempt, why, at) => TerminalKeeps(db, e, task, from, attempt, why, at);
    case Closure(task, attempt, at) => ClosureKeeps(db, e, task, attempt, at);
    case RecordOutage(x) => DispositionKeeps(db, e, x.attempt, Some(RecoveryPending));
    case Observe(x, seen, at) => RecoveryProofs.ObserveKeeps(db, e, x, seen, at);
  }

  lemma StopKeeps(db: DB, s: StopOp)
    requires Inv(db) && StopAllowed(db, s)
    ensures Inv(StopEffect(db, s))
  {
    hide Inv;
    match s
    case ReserveStop(op, t) => StopProofs.ReserveKeeps(db, ReserveStopCommit(db, op, t), op, t);
    case CallAccepted(op, callAt, deadline) => StopProofs.CallAcceptedKeeps(db, op, callAt, deadline);
    case CommitOutcome(op, o) => StopProofs.OutcomeKeeps(db, StopOutcomeCommit(db, op, o), op, o);
    case ClassifyAbandoned(op, session, gen, at) => StopProofs.AbandonedKeeps(db, op, session, gen, at);
    case AcceptRisk(d) => StopProofs.AcceptRiskKeeps(db, d);
  }

  lemma RestoreKeeps(db: DB, s: RestoreOp)
    requires Inv(db) && RestoreAllowed(db, s)
    ensures Inv(RestoreEffect(db, s))
  {
    hide Inv;
    match s
    case ReserveRestore(op, tuple) => RestoreProofs.ReserveKeeps(db, op, tuple);
    case UnknownRestore(op) => RestoreProofs.UnknownKeeps(db, op);
    case ConfirmRestore(op, session, oldGen, newGen, status, at) =>
      RestoreProofs.ConfirmKeeps(db, ConfirmRestoreCommit(db, op, newGen, status, at), op, session, oldGen, newGen, status, at);
    case ResolveConfirmed(op, session, gen, activity, principal, at) =>
      RestoreProofs.ResolveConfirmedKeeps(db, op, session, gen, activity, principal, at);
    case ClaimRecovery(op, pair, session, gen, principal, at) => RestoreProofs.ClaimKeeps(db, op, pair, session, gen, principal, at);
    case ClaimCleanup(op, t, principal, seen) => RestoreProofs.CleanupKeeps(db, ClaimCleanupCommit(db, op, t), op, t, principal, seen);
    case ResolveAmbiguous(op, pair, session, gen, basis, principal, at) =>
      RestoreProofs.ResolveAmbiguousKeeps(db, op, pair, session, gen, basis, principal, at);
    case ClassifyInterrupted(op) => RestoreProofs.InterruptedKeeps(db, op);
  }

  /** Every transaction keeps the invariant. */
  lemma StepKeeps(db: DB, s: Step)
    requires Inv(db) && Allowed(db, s)
    ensures Inv(Effect(db, s))
  {
    hide Inv, TaskEffect, PairEffect, DispatchEffect, ExecutionEffect, StopEffect, RestoreEffect;
    hide TaskAllowed, PairAllowed, DispatchAllowed, ExecutionAllowed, StopAllowed, RestoreAllowed;
    match s
    case TaskStep(t) => TaskKeeps(db, t);
    case PairStep(t) => PairKeeps(db, t);
    case DispatchStep(t) => DispatchKeeps(db, t);
    case ExecutionStep(t) => ExecutionKeeps(db, t);
    case StopStep(t) => StopKeeps(db, t);
    case RestoreStep(t) => RestoreKeeps(db, t);
  }
}
