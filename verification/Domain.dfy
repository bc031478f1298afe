/** The rows of the supervisor's store (internal/domain, internal/store/migrations.go).
    A table is a map from primary key to row; a whole database is one value, so that a
    transaction either replaces it (commit) or leaves it (rollback). Columns that no
    statement ever updates are grouped in one component of the row. */
module Domain {

  datatype Option<+T> = None | Some(value: T)

  /** Identifiers are opaque; the empty string the guards refuse is not representable. */
  type Id = nat

  /** Nanoseconds since the start of year 1. */
  type Time = int
  /** First instant after year 9999. */
  const TIME_LIMIT: Time := 315_537_897_600_000_000_000

  datatype Error = Nil | StateConflict | LineageMismatch | Quarantined | NotFound | Invalid

  datatype TaskState =
    | Draft | Ready | Dispatched | Running | ReportReady | EvidenceReady | Reviewing
    | Approved | RevisionRequired | Blocked | Failed | HumanRequired | Cancelled

  datatype Task = Task(pair: Id, state: TaskState, current: nat)

  datatype Contract = Contract(task: Id, revision: int, supersedes: Option<Id>, baseSha: Id, frozen: bool)

  datatype Disposition =
    | RecoveryPending | PreSendProtocolUnverified
    | UncertainDeliveryCrash | SessionAbsent | StaleExecutionGeneration | PreSendIdentityMismatch
    | WorkerTerminationUnknown | MissedActiveWindow | AoWaitingInputObserved | AoBlockedDecision
    | AoBlockedEscalated | WorkerStopped | StopConfirmationTimedOut | StopGenerationMismatched
    | StopCallUnknown

  /** The immutable binding of an attempt: owner, contract, number and execution snapshot. */
  datatype Lineage = Lineage(task: Id, contract: Id, number: nat, session: Id, gen: Id)
  datatype Attempt = Attempt(lineage: Lineage, ended: Option<Time>, disposition: Option<Disposition>, quarantined: bool)

  datatype SessionStatus = SessionActive | SessionIdle | SessionTerminated
  datatype Session = Session(session: Id, gen: Id, status: SessionStatus, quarantined: bool)

  datatype ProvisionStage = ProvisionRequested | ProvisionConfirmed | ProvisionFailed | ProvisionResolved
  datatype Provision = Provision(pair: Id, stage: ProvisionStage, session: Option<Id>)

  datatype DispatchStage = DispatchBound | SendRequested | SendConfirmed
  /** The immutable columns of a dispatch operation. */
  datatype Binding = Binding(attempt: Id, pair: Id, task: Id, session: Id, gen: Id)
  /** unknown is resolution_state = DELIVERY_OUTCOME_UNKNOWN, its only non-null value. */
  datatype Dispatch = Dispatch(bound: Binding, stage: DispatchStage, confirmedAt: Option<Time>, unknown: bool)

  /** Keyed by attempt. */
  datatype Budget = Budget(op: Id, origin: Time, deadline: Time, duration: int, policy: Id, legacy: bool)

  datatype Purpose = RunningAttemptStop | QuarantineCleanup | PairMaintenance
  datatype StopStage = StopRequested | StopCallSucceeded | StopCallFailed | StopTerminationConfirmed | StopTargetAbsent
  datatype Resolution =
    | InFlight | TerminationConfirmed | TargetAbsent | ConfirmationTimeout | GenerationMismatch
    | EffectUnproven | ReissueRequiresHuman | CallFailed | CallOutcomeUnknown | RiskAccepted

  datatype StopLineage = StopLineage(task: Id, contract: Id, attempt: Id)
  /** The columns of a stop fixed by its insertion; timeout is initiating_failure_reason = TIMEOUT. */
  datatype StopTarget = StopTarget(
    purpose: Purpose, pair: Id, lineage: Option<StopLineage>, session: Id, gen: Id,
    restore: Option<Id>, timeout: bool, requestedAt: Time)
  datatype Stop = Stop(
    target: StopTarget, stage: StopStage, callAt: Option<Time>, deadline: Option<Time>,
    confirmedAt: Option<Time>, resolvedAt: Option<Time>, resolution: Resolution)

  datatype RestoreStage = RestoreRequested | RestoreConfirmed
  datatype RestoreResolution = RestoreInFlight | RestoreOutcomeUnknown | RecoveryClaimed | CleanupClaimed | RestoreResolved
  datatype RestoreBasis = Http200Basis | PhysicalBasis | AdministrativeBasis
  datatype RestoreTuple = RestoreTuple(authorization: Id, pair: Id, session: Id, expected: Id, requestedAt: Time)
  datatype Restore = Restore(
    tuple: RestoreTuple, observed: Option<Id>, http200At: Option<Time>, stage: RestoreStage,
    resolution: RestoreResolution, basis: Option<RestoreBasis>, principal: Option<Id>,
    claimedAt: Option<Time>, resolvedAt: Option<Time>, version: nat)

  /** What a status GET reported about a session. */
  datatype Activity = ActivityActive | ActivityIdle | ActivityWaitingInput | ActivityBlocked | ActivityExited
  datatype Observation = Observation(session: Id, gen: Id, terminated: bool)

  datatype RiskClass = ClassB | ClassC
  datatype LineageRef = LineageRef(attempt: Option<Id>, session: Id, gen: Id)

  /** The name under which an event's details store a generation: appendClearanceAudit and
      appendStopAudit use different ones. */
  datatype GenerationKey = TerminalGeneration | TargetGeneration

  /** Audit events. The constructors with fields are those that a later statement reads back;
      every other event is a Note. */
  datatype Event =
    | TaskTransitionEvent(pair: Id, task: Id, attempt: Id, from: TaskState, to: TaskState, cause: Option<Id>)
    | SendRequestedEvent(dispatch: Id, pair: Id, task: Id, attempt: Id, session: Id, gen: Id)
    | SendConfirmedEvent(dispatch: Id, pair: Id, task: Id, attempt: Id)
    | DeliveryQuarantineEvent(dispatch: Id, pair: Id, task: Id, attempt: Id, session: Id, gen: Id)
    | StopConfirmedEvent(
        stop: Id, pair: Id, lineage: Option<StopLineage>, session: Id, gen: Id, restore: Option<Id>,
        deadline: Time, confirmedAt: Time, observed: Observation)
    | StopTargetAbsentEvent(stop: Id, pair: Id)
    | RiskAcceptedEvent(
        stop: Id, pair: Id, actor: Id, ref: LineageRef, riskClass: RiskClass, restore: Option<Id>,
        oldResolution: Resolution, reason: Id, evidence: seq<Id>)
    | LineageClearedEvent(pair: Id, ref: LineageRef, stop: Id, physical: bool, key: GenerationKey)
    | Note(kind: NoteKind, subject: Id)

  datatype NoteKind =
    | ProvisionRequestedNote | ProvisionedNote | ProvisionFailedNote | DispatchBoundNote
    | PreSendRejectedNote | PreSendRecoveredNote | PostSendPendingNote | PostSendRecoveredNote
    | BlockedOnDecisionNote | MissedWindowNote | BlockedEscalatedNote
    | StopRequestedNote | StopCallSucceededNote | StopOutcomeNote
    | RestoreRiskNote | RestoreRequestedNote | RestoreConfirmedNote | RestoreUnknownNote
    | RestoreClaimedNote | RestoreCleanupNote | RestoreResolvedNote
    | SweepStartedNote | SweepCompletedNote

  datatype DB = DB(
    tasks: map<Id, Task>,
    contracts: map<Id, Contract>,
    attempts: map<Id, Attempt>,
    sessions: map<Id, Session>,          // keyed by pair
    provisions: map<Id, Provision>,
    dispatches: map<Id, Dispatch>,
    budgets: map<Id, Budget>,            // keyed by attempt
    stops: map<Id, Stop>,
    stopOrder: seq<Id>,                  // rowid order of the stop table
    restores: map<Id, Restore>,
    log: seq<Event>)

  const EMPTY_DB := DB(map[], map[], map[], map[], map[], map[], map[], map[], [], map[], [])

  /** The connection. A transaction works on its own copy and Commit installs it. */
  class Store {
    var db: DB

    constructor ()
      ensures db == EMPTY_DB
    {
      db := EMPTY_DB;
    }
  }
}
