/** Every state-changing transaction of the store as one atomic step. A transaction that is
    rejected, or that answers an exact replay, leaves the database as it was. */
module Steps {
  import opened Domain
  import opened TaskTransactions
  import opened ProvisioningTransactions
  import opened DispatchTransactions
  import opened RecoveryTransactions
  import opened StopTransactions
  import opened RestoreTransactions
  import opened ClearanceTransactions

  datatype TaskOp =
    | CreateTask(task: Id, pair: Id)
    | InsertContract(id: Id, task: Id, revision: int, supersedes: Option<Id>, baseSha: Id)
    | Transition(task: Id, from: TaskState, to: TaskState)

  datatype PairOp =
    | ReserveProvision(op: Id, pair: Id)
    | ConfirmProvision(op: Id, pair: Id, row: Session)
    | FailProvision(op: Id)
    | UpdateStatus(pair: Id, expected: SessionStatus, quarantined: bool, status: SessionStatus)
    | Clear(rq: Request)
    | AppendAudit(event: Event)

  datatype DispatchOp =
    | Prepare(x: Allocation)
    | Hold(op: Id, hold: Disposition)
    | Reject(op: Id, activity: Activity)
    | ResolveHold(op: Id, attempt: Id, hold: Disposition, session: Id, gen: Id, activity: Activity, principal: Option<Id>)
    | RequestSend(op: Id, seen: Observation, activity: Activity)
    | ConfirmSend(op: Id, http200: bool, at: Time, duration: int, policy: Id)
    | UnknownDelivery(op: Id, at: Time)

  datatype ExecutionOp =
    | Terminal(task: Id, from: TaskState, attempt: Id, why: Disposition, at: Time)
    | Closure(task: Id, attempt: Id, at: Time)
    | RecordOutage(x: Execution)
    | Observe(x: Execution, seen: PostSend, at: Time)

  datatype StopOp =
    | ReserveStop(op: Id, target: StopTarget)
    | CallAccepted(op: Id, callAt: Time, deadline: Time)
    | CommitOutcome(op: Id, outcome: Outcome)
    | ClassifyAbandoned(op: Id, session: Id, gen: Id, at: Time)
    | AcceptRisk(decision: Decision)

  datatype RestoreOp =
    | ReserveRestore(op: Id, tuple: RestoreTuple)
    | UnknownRestore(op: Id)
    | ConfirmRestore(op: Id, session: Id, oldGen: Id, newGen: Id, status: SessionStatus, at: Time)
    | ResolveConfirmed(op: Id, session: Id, gen: Id, activity: Activity, principal: Id, at: Time)
    | ClaimRecovery(op: Id, pair: Id, session: Id, gen: Id, principal: Id, at: Time)
    | ClaimCleanup(op: Id, target: StopTarget, principal: Id, seen: Option<Observation>)
    | ResolveAmbiguous(op: Id, pair: Id, session: Id, gen: Id, basis: RestoreBasis, principal: Id, at: Time)
    | ClassifyInterrupted(op: Id)

  datatype Step =
    | TaskStep(task: TaskOp)
    | PairStep(pair: PairOp)
    | DispatchStep(dispatch: DispatchOp)
    | ExecutionStep(execution: ExecutionOp)
    | StopStep(stop: StopOp)
    | RestoreStep(restore: RestoreOp)

  // --- guards ------------------------------------------------------------------------

  predicate TaskAllowed(db: DB, s: TaskOp) {
    match s
    case CreateTask(task, _) => CreateTaskAdmits(db, task)
    case InsertContract(id, task, revision, supersedes, baseSha) => InsertContractAdmits(db, id, task, revision, supersedes, baseSha)
    case Transition(task, from, to) => TransitionAdmits(db, task, from, to)
  }

  predicate PairAllowed(db: DB, s: PairOp) {
    match s
    case ReserveProvision(op, pair) => ReserveProvisionAdmits(db, op, pair)
    case ConfirmProvision(op, pair, row) => ConfirmProvisionAdmits(db, op, pair, row)
    case FailProvision(op) => FailProvisionAdmits(db, op)
    case UpdateStatus(pair, expected, quarantined, _) => UpdateStatusAdmits(db, pair, expected, quarantined)
    case Clear(rq) => ClearAdmits(db, rq)
    case AppendAudit(_) => true
  }

  predicate DispatchAllowed(db: DB, s: DispatchOp) {
    match s
    case Prepare(x) => PrepareAdmits(db, x.task, x.contract, x.attempt, x.op, x.session, x.gen)
    case Hold(op, hold) => HoldAdmits(db, op, hold)
    case Reject(op, activity) => RejectAdmits(db, op, activity)
    case ResolveHold(op, attempt, hold, session, gen, activity, principal) =>
      ResolveHoldAdmits(db, op, attempt, hold, session, gen, activity, principal)
    case RequestSend(op, seen, activity) => SendRequestedAdmits(db, op, seen, activity)
    case ConfirmSend(op, http200, at, duration, _) => SendConfirmedAdmits(db, op, http200, at, duration)
    case UnknownDelivery(op, _) => UnknownDeliveryAdmits(db, op)
  }

  predicate ExecutionAllowed(db: DB, s: ExecutionOp) {
    match s
    case Terminal(task, from, attempt, why, _) => TerminalAdmits(db, task, from, attempt, why)
    case Closure(task, attempt, _) => ClosureAdmits(db, task, attempt)
    case RecordOutage(x) => OutageAdmits(db, x)
    case Observe(x, seen, _) => ObserveAdmits(db, x, seen)
  }

  predicate StopAllowed(db: DB, s: StopOp) {
    match s
    case ReserveStop(op, t) => ReserveStopAdmits(db, op, t)
    case CallAccepted(op, callAt, deadline) => CallAcceptedAdmits(db, op, callAt, deadline)
    case CommitOutcome(op, o) => StopOutcomeAdmits(db, op, o)
    case ClassifyAbandoned(op, session, gen, _) => AbandonedAdmits(db, op, session, gen)
    case AcceptRisk(d) => AcceptRiskAdmits(db, d)
  }

  predicate RestoreAllowed(db: DB, s: RestoreOp) {
    match s
    case ReserveRestore(op, tuple) => ReserveRestoreAdmits(db, op, tuple)
    case UnknownRestore(op) => RestoreUnknownAdmits(db, op)
    case ConfirmRestore(op, session, oldGen, _, _, _) => ConfirmRestoreAdmits(db, op, session, oldGen)
    case ResolveConfirmed(op, session, gen, activity, principal, _) => ResolveConfirmedAdmits(db, op, session, gen, activity, principal)
    case ClaimRecovery(op, pair, session, gen, _, _) => ClaimRecoveryAdmits(db, op, pair, session, gen)
    case ClaimCleanup(op, t, principal, seen) => ClaimCleanupAdmits(db, op, t, principal, seen)
    case ResolveAmbiguous(op, pair, session, gen, basis, principal, _) => ResolveAmbiguousAdmits(db, op, pair, session, gen, basis, principal)
    case ClassifyInterrupted(op) => InterruptedAdmits(db, op)
  }

  predicate Allowed(db: DB, s: Step) {
    match s
    case TaskStep(t) => TaskAllowed(db, t)
    case PairStep(t) => PairAllowed(db, t)
    case DispatchStep(t) => DispatchAllowed(db, t)
    case ExecutionStep(t) => ExecutionAllowed(db, t)
    case StopStep(t) => StopAllowed(db, t)
    case RestoreStep(t) => RestoreAllowed(db, t)
  }

  // --- effects -------------------------------------------------------------------------

  function TaskEffect(db: DB, s: TaskOp): DB
    requires TaskAllowed(db, s)
  {
    match s
    case CreateTask(task, pair) => CreateTaskCommit(db, task, pair)
    case InsertContract(id, task, revision, supersedes, baseSha) => InsertContractCommit(db, id, task, revision, supersedes, baseSha)
    case Transition(task, _, to) => TransitionCommit(db, task, to)
  }

  function PairEffect(db: DB, s: PairOp): DB
    requires PairAllowed(db, s)
  {
    match s
    case ReserveProvision(op, pair) => ReserveProvisionCommit(db, op, pair)
    case ConfirmProvision(op, pair, row) => ConfirmProvisionCommit(db, op, pair, row)
    case FailProvision(op) => FailProvisionCommit(db, op)
    case UpdateStatus(pair, _, _, status) => UpdateStatusCommit(db, pair, status)
    case Clear(rq) => ClearCommit(db, rq)
    case AppendAudit(event) => db.(log := db.log + [event])
  }

  function DispatchEffect(db: DB, s: DispatchOp): DB
    requires DispatchAllowed(db, s)
  {
    match s
    case Prepare(x) => PrepareCommit(db, x.task, x.contract, x.attempt, x.op, x.session, x.gen)
    case Hold(op, hold) => HoldCommit(db, op, hold)
    case Reject(op, _) => RejectCommit(db, op)
    case ResolveHold(op, attempt, _, _, _, _, _) => ResolveHoldCommit(db, op, attempt)
    case RequestSend(op, _, _) => SendRequestedCommit(db, op)
    case ConfirmSend(op, _, at, duration, policy) => SendConfirmedCommit(db, op, at, duration, policy)
    case UnknownDelivery(op, at) => UnknownDeliveryCommit(db, op, at)
  }

  function ExecutionEffect(db: DB, s: ExecutionOp): DB
    requires ExecutionAllowed(db, s)
  {
    match s
    case Terminal(task, from, attempt, why, at) => TerminalCommit(db, task, from, attempt, why, at)
    case Closure(task, attempt, at) => ClosureCommit(db, task, attempt, at)
    case RecordOutage(x) => OutageCommit(db, x)
    case Observe(x, seen, at) => ObserveCommit(db, x, seen, at)
  }

  function StopEffect(db: DB, s: StopOp): DB
    requires StopAllowed(db, s)
  {
    match s
    case ReserveStop(op, t) => ReserveStopCommit(db, op, t)
    case CallAccepted(op, callAt, deadline) => CallAcceptedCommit(db, op, callAt, deadline)
    case CommitOutcome(op, o) => StopOutcomeCommit(db, op, o)
    case ClassifyAbandoned(op, _, _, at) => AbandonedCommit(db, op, at)
    case AcceptRisk(d) => AcceptRiskCommit(db, d)
  }

  function RestoreEffect(db: DB, s: RestoreOp): DB
    requires RestoreAllowed(db, s)
  {
    match s
    case ReserveRestore(op, tuple) => ReserveRestoreCommit(db, op, tuple)
    case UnknownRestore(op) => RestoreUnknownCommit(db, op)
    case ConfirmRestore(op, _, _, newGen, status, at) => ConfirmRestoreCommit(db, op, newGen, status, at)
    case ResolveConfirmed(op, _, _, _, principal, at) => ResolveConfirmedCommit(db, op, principal, at)
    case ClaimRecovery(op, _, _, _, principal, at) => ClaimRecoveryCommit(db, op, principal, at)
    case ClaimCleanup(op, t, _, _) => ClaimCleanupCommit(db, op, t)
    case ResolveAmbiguous(op, _, _, _, basis, principal, at) => ResolveAmbiguousCommit(db, op, basis, principal, at)
    case ClassifyInterrupted(op) => InterruptedCommit(db, op)
  }

  function Effect(db: DB, s: Step): DB
    requires Allowed(db, s)
  {
    match s
    case TaskStep(t) => TaskEffect(db, t)
    case PairStep(t) => PairEffect(db, t)
    case DispatchStep(t) => DispatchEffect(db, t)
    case ExecutionStep(t) => ExecutionEffect(db, t)
    case StopStep(t) => StopEffect(db, t)
    case RestoreStep(t) => RestoreEffect(db, t)
  }

  /** The steps production code takes: TransitionTask has no production caller that leaves
      DISPATCHED or RUNNING, and no coordinator closes a RUNNING attempt with
      AtomicTerminalTransition. */
  predicate SagaStep(s: Step) {
    && (s.TaskStep? && s.task.Transition? ==> !s.task.from.Dispatched? && !s.task.from.Running?)
    && (s.ExecutionStep? && s.execution.Terminal? ==> s.execution.from.Dispatched?)
  }

  // --- runs --------------------------------------------------------------------------------

  ghost predicate Chain(db: DB, s: Step, e: DB) { Allowed(db, s) && e == Effect(db, s) }

  /** Step i of a run commits. */
  ghost predicate StepAt(states: seq<DB>, steps: seq<Step>, i: int) {
    0 <= i < |steps| && i + 1 < |states| && Chain(states[i], steps[i], states[i + 1])
  }

  /** A run is any sequence of committed transactions from an empty database, whichever
      process, coordinator or recovery sweep issued them and wherever it crashed between. */
  ghost predicate Run(states: seq<DB>, steps: seq<Step>) {
    && |states| == |steps| + 1
    && states[0] == EMPTY_DB
    && forall i | 0 <= i < |steps| :: StepAt(states, steps, i)
  }

  ghost predicate SagaRun(states: seq<DB>, steps: seq<Step>) {
    Run(states, steps) && forall i | 0 <= i < |steps| :: SagaStep(steps[i])
  }
}
