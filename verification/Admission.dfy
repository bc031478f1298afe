/** The checks that decide. In the states runs reach, most of what a transaction checks holds
    anyway; for every transaction this is the part that can fail, read off the rows. */
module Admission {
  import opened Domain
  import opened Tables
  import opened RecoveryTransactions
  import opened StopTransactions
  import opened RestoreTransactions
  import opened TaskTransactions
  import opened ProvisioningTransactions
  import opened Workflow
  import opened Invariants
  import opened Steps
  import LineageTheorems
  import Runs
  import StopTheorems

  // --- tasks --------------------------------------------------------------------------------

  /** The latest revision of the task's contract, still mutable. */
  predicate DraftedContract(db: DB, task: Id) {
    exists c | c in db.contracts :: db.contracts[c].task == task && !db.contracts[c].frozen
      && forall k | k in db.contracts && db.contracts[k].task == task :: db.contracts[k].revision <= db.contracts[c].revision
  }

  /** The edges TransitionTask may take. */
  predicate Edge(from: TaskState, to: TaskState) {
    (from, to) in {
      (Draft, Ready), (Draft, Cancelled), (Ready, Cancelled), (Dispatched, Running), (Dispatched, Failed),
      (Running, ReportReady), (Running, Failed), (Running, Blocked), (ReportReady, EvidenceReady), (ReportReady, Failed),
      (EvidenceReady, Reviewing), (EvidenceReady, Failed), (Reviewing, Approved), (Reviewing, RevisionRequired), (Reviewing, Blocked),
      (RevisionRequired, Ready), (Blocked, HumanRequired), (Failed, HumanRequired), (Failed, Ready), (HumanRequired, Draft), (HumanRequired, Cancelled)}
  }

  /** A task that FAILED may retry at once, and a DISPATCHED one already has the lane. */
  predicate TaskChecks(db: DB, s: TaskOp) {
    match s
    case CreateTask(task, _) => task !in db.tasks
    case InsertContract(id, task, revision, supersedes, baseSha) =>
      && id !in db.contracts && task in db.tasks && revision >= 1
      && (forall c | c in db.contracts && db.contracts[c].task == task :: db.contracts[c].revision != revision)
      && (db.tasks[task].state == Draft || (db.tasks[task].state == RevisionRequired && revision > 1))
      && (if revision == 1 then supersedes == None
          else
            && supersedes.Some? && supersedes.value in db.contracts
            && var prev := db.contracts[supersedes.value];
            && prev.task == task && prev.revision == revision - 1 && prev.baseSha == baseSha && prev.frozen)
    case Transition(task, from, to) =>
      && task in db.tasks && db.tasks[task].state == from && Edge(from, to)
      && (to == Ready && from != Failed ==> DraftedContract(db, task))
      && (to == Reviewing ==> forall t | t in db.tasks && db.tasks[t].pair == db.tasks[task].pair :: db.tasks[t].state !in {Dispatched, Running, Reviewing})
  }

  // --- Pairs --------------------------------------------------------------------------------

  predicate PairChecks(db: DB, s: PairOp)
    requires !s.Clear?
  {
    match s
    case ReserveProvision(op, pair) => op !in db.provisions && pair !in db.sessions && forall p | p in db.provisions :: db.provisions[p].pair != pair
    case ConfirmProvision(op, pair, row) =>
      && op in db.provisions && db.provisions[op].stage == ProvisionRequested && db.provisions[op].pair == pair
      && forall p | p in db.sessions :: db.sessions[p].session != row.session
    case FailProvision(op) => op in db.provisions && db.provisions[op].stage == ProvisionRequested
    case UpdateStatus(pair, expected, quarantined, _) =>
      && pair in db.sessions && db.sessions[pair].status == expected && db.sessions[pair].quarantined == quarantined
      && forall r | r in db.restores && db.restores[r].tuple.pair == pair :: db.restores[r].resolution == RestoreResolved
    case AppendAudit(_) => true
  }

  // --- dispatch -----------------------------------------------------------------------------

  /** The operation sends the prompt of the current attempt of a DISPATCHED task. */
  predicate Sends(db: DB, op: Id, stage: DispatchStage) {
    && op in db.dispatches && db.dispatches[op].stage == stage && !db.dispatches[op].unknown
    && var b := db.dispatches[op].bound;
    && b.task in db.tasks && b.attempt in db.attempts
    && db.tasks[b.task].state == Dispatched && db.attempts[b.attempt].lineage.number == db.tasks[b.task].current
  }

  /** The operation is bound and its attempt open. */
  predicate Unsent(db: DB, op: Id) {
    && op in db.dispatches && db.dispatches[op].stage == DispatchBound
    && db.dispatches[op].bound.attempt in db.attempts && db.attempts[db.dispatches[op].bound.attempt].ended == None
  }

  predicate DispatchChecks(db: DB, s: DispatchOp) {
    match s
    case Prepare(x) =>
      && x.task in db.tasks && db.tasks[x.task].state == Ready
      && var pair := db.tasks[x.task].pair;
      && (forall t | t in db.tasks && db.tasks[t].pair == pair :: db.tasks[t].state !in {Dispatched, Running, Reviewing})
      && x.contract in db.contracts && db.contracts[x.contract].task == x.task
      && (forall k | k in db.contracts && db.contracts[k].task == x.task :: db.contracts[k].revision <= db.contracts[x.contract].revision)
      && pair in db.sessions && db.sessions[pair].session == x.session && db.sessions[pair].gen == x.gen && !db.sessions[pair].quarantined
      && x.attempt !in db.attempts && x.op !in db.dispatches
    case Hold(op, hold) =>
      && Unsent(db, op)
      && var was := db.attempts[db.dispatches[op].bound.attempt].disposition;
      && ((hold == PreSendProtocolUnverified && was != Some(PreSendProtocolUnverified)) || (hold == RecoveryPending && was == None))
    case Reject(op, activity) => Unsent(db, op) && activity in {ActivityActive, ActivityBlocked, ActivityExited}
    case ResolveHold(op, attempt, hold, session, gen, activity, principal) =>
      && Unsent(db, op) && db.dispatches[op].bound.attempt == attempt
      && var a := db.attempts[attempt];
      && a.lineage.task in db.tasks && a.lineage.number == db.tasks[a.lineage.task].current
      && a.lineage.session == session && a.lineage.gen == gen && a.disposition == Some(hold)
      && activity in {ActivityIdle, ActivityWaitingInput}
      && (hold == RecoveryPending || (hold == PreSendProtocolUnverified && principal.Some?))
    case RequestSend(op, seen, activity) =>
      && Sends(db, op, DispatchBound)
      && var b := db.dispatches[op].bound;
      && seen == Observation(b.session, b.gen, false) && activity in {ActivityIdle, ActivityWaitingInput}
      && db.attempts[b.attempt].disposition == None
      && b.pair in db.sessions && !db.sessions[b.pair].quarantined
    case ConfirmSend(op, http200, at, duration, _) =>
      Sends(db, op, SendRequested) && http200 && 0 <= at && 0 < duration && at + duration < TIME_LIMIT
    case UnknownDelivery(op, _) => Sends(db, op, SendRequested)
  }

  // --- executions ---------------------------------------------------------------------------

  predicate CurrentOf(db: DB, task: Id, attempt: Id) {
    && task in db.tasks && attempt in db.attempts
    && db.attempts[attempt].lineage.task == task && db.attempts[attempt].lineage.number == db.tasks[task].current
  }

  /** The rows still show the execution the observer read, sent and not stopped. */
  predicate StillRuns(db: DB, x: Execution) {
    && x.op in db.dispatches && db.dispatches[x.op].stage == SendConfirmed
    && var b := db.dispatches[x.op].bound;
    && CurrentOf(db, b.task, b.attempt) && db.tasks[b.task].state in {Dispatched, Running}
    && x == Execution(x.op, b.pair, b.task, db.attempts[b.attempt].lineage.contract, b.attempt, b.session, b.gen,
                      db.tasks[b.task].state, SendConfirmed, db.attempts[b.attempt].disposition)
    && forall o | o in db.stops && db.stops[o].target.purpose == RunningAttemptStop && db.stops[o].target.lineage.Some? ::
         db.stops[o].target.lineage.value.attempt != b.attempt
  }

  predicate ExecutionChecks(db: DB, s: ExecutionOp) {
    match s
    case Terminal(task, from, attempt, _, _) => CurrentOf(db, task, attempt) && db.tasks[task].state == from && from in {Running, Dispatched}
    case Closure(task, attempt, _) => CurrentOf(db, task, attempt) && db.tasks[task].state == Blocked
    case RecordOutage(x) => StillRuns(db, x) && x.disposition == None
    case Observe(x, seen, _) => StillRuns(db, x) && seen.session == x.session
  }

  // --- stops --------------------------------------------------------------------------------

  predicate Waits(db: DB, op: Id, stage: StopStage) {
    op in db.stops && db.stops[op].stage == stage && db.stops[op].resolution == InFlight
  }

  /** The attempt a stop names, with the snapshot it names. */
  predicate Names(db: DB, t: StopTarget) {
    && t.lineage.Some? && t.lineage.value.attempt in db.attempts
    && var l := db.attempts[t.lineage.value.attempt].lineage;
    && l.task == t.lineage.value.task && l.contract == t.lineage.value.contract && l.session == t.session && l.gen == t.gen
    && l.task in db.tasks && db.tasks[l.task].pair == t.pair
  }

  /** A TIMEOUT needs the attempt's own budget to have run out on a clean runtime. */
  predicate ReserveChecks(db: DB, op: Id, t: StopTarget) {
    && op !in db.stops && t.restore == None && (t.timeout ==> t.purpose == RunningAttemptStop)
    && t.pair in db.sessions && db.sessions[t.pair].session == t.session && db.sessions[t.pair].gen == t.gen
    && (forall o | o in db.stops && db.stops[o].target.pair == t.pair ::
          db.stops[o].resolution !in {InFlight, CallOutcomeUnknown, ConfirmationTimeout, ReissueRequiresHuman})
    && (forall r | r in db.restores && db.restores[r].tuple.pair == t.pair :: db.restores[r].resolution == RestoreResolved)
    && match t.purpose
       case PairMaintenance => t.lineage == None
       case QuarantineCleanup =>
         && Names(db, t)
         && var a := t.lineage.value.attempt;
         && db.attempts[a].ended.Some? && db.attempts[a].quarantined && db.tasks[t.lineage.value.task].state in {Failed, HumanRequired}
       case RunningAttemptStop =>
         && Names(db, t)
         && var a := t.lineage.value.attempt;
         && CurrentOf(db, t.lineage.value.task, a) && db.tasks[t.lineage.value.task].state == Running
         && (forall o | o in db.stops && db.stops[o].target.purpose == RunningAttemptStop && db.stops[o].target.lineage.Some? ::
               db.stops[o].target.lineage.value.attempt != a)
         && (t.timeout ==>
               && a in db.budgets && db.budgets[a].deadline <= t.requestedAt
               && !db.sessions[t.pair].quarantined
               && db.attempts[a].disposition in {None, Some(AoWaitingInputObserved)})
  }

  /** What each result asks of the row, the observation and the clock. */
  predicate OutcomeChecks(row: Stop, o: Outcome) {
    && row.resolution == InFlight && o.expected == row.stage
    && var t := row.target;
    match o.resolution
    case TerminationConfirmed =>
      && row.stage == StopCallSucceeded && o.stage == StopTerminationConfirmed
      && o.observed == Some(Observation(t.session, t.gen, true))
      && row.callAt.Some? && row.deadline.Some? && row.callAt.value <= o.at < row.deadline.value
    case TargetAbsent => o.stage == StopTargetAbsent
    case CallFailed => row.stage == StopRequested && o.stage == StopCallFailed
    case CallOutcomeUnknown => row.stage == StopRequested && o.stage == StopRequested
    case EffectUnproven => row.stage == StopRequested && o.stage == StopRequested && o.observed == Some(Observation(t.session, t.gen, true))
    case ConfirmationTimeout => row.stage == StopCallSucceeded && o.stage == StopCallSucceeded
    case GenerationMismatch => o.stage == row.stage && o.observed.Some? && o.observed.value.session == t.session && o.observed.value.gen != t.gen
    case _ => false
  }

  /** The runtime an outcome writes to: the live attempt, or the session at its generation. */
  predicate RuntimeChecks(db: DB, t: StopTarget) {
    if t.purpose == RunningAttemptStop
    then
      && t.lineage.Some? && CurrentOf(db, t.lineage.value.task, t.lineage.value.attempt) && db.tasks[t.lineage.value.task].state == Running
    else t.pair in db.sessions && (db.sessions[t.pair].gen == t.gen || (t.restore.Some? && t.purpose == QuarantineCleanup))
  }

  /** One lineage of a decision: quarantined, on the decision's Pair and session. */
  predicate RiskOf(db: DB, d: Decision, t: StopTarget, l: LineageRef) {
    && l.session == d.session
    && (d.expectedResolution == TargetAbsent ==>
          l.gen == t.gen && (l.attempt.Some? ==> t.lineage.Some? && l.attempt.value == t.lineage.value.attempt))
    && if l.attempt.Some?
       then
         && l.attempt.value in db.attempts
         && var a := db.attempts[l.attempt.value];
         && a.quarantined && a.lineage.session == l.session && a.lineage.gen == l.gen
         && a.lineage.task in db.tasks && db.tasks[a.lineage.task].pair == d.pair
       else d.pair in db.sessions && db.sessions[d.pair].quarantined && db.sessions[d.pair].gen == l.gen

  }

  /** The first decision about a stop that is neither in flight, confirmed nor accepted, naming
      each lineage once; a linked stop is decided by the principal of its claimed restore. */
  predicate AcceptChecks(db: DB, d: Decision) {
    && d.stop in db.stops
    && var row := db.stops[d.stop]; var t := row.target;
    && row.stage == d.expectedStage && row.resolution == d.expectedResolution
    && row.resolution !in {InFlight, TerminationConfirmed, RiskAccepted}
    && t.pair == d.pair && t.session == d.session && t.gen == d.gen && t.purpose == d.purpose && t.restore == d.restore
    && (match d.attempt case None => t.lineage == None case Some(a) => t.lineage.Some? && t.lineage.value.attempt == a)
    && (forall i | 0 <= i < |db.log| && db.log[i].RiskAcceptedEvent? :: db.log[i].stop != d.stop)
    && (match t.restore
        case None => forall r | r in db.restores && db.restores[r].tuple.pair == t.pair :: db.restores[r].resolution == RestoreResolved
        case Some(r) => r in db.restores && db.restores[r].resolution == CleanupClaimed && db.restores[r].principal == Some(d.principal))
    && (row.resolution == TargetAbsent ==> StopTargetAbsentEvent(d.stop, d.pair) in db.log)
    && |d.evidence| > 0 && |d.lineages| > 0
    && (forall i, j | 0 <= i < j < |d.lineages| :: d.lineages[i].attempt != d.lineages[j].attempt)
    && forall i | 0 <= i < |d.lineages| :: RiskOf(db, d, t, d.lineages[i])
  }

  predicate StopChecks(db: DB, s: StopOp) {
    match s
    case ReserveStop(op, t) => ReserveChecks(db, op, t)
    case CallAccepted(op, callAt, deadline) => Waits(db, op, StopRequested) && callAt < deadline
    case CommitOutcome(op, o) => op in db.stops && OutcomeChecks(db.stops[op], o) && RuntimeChecks(db, db.stops[op].target)
    case ClassifyAbandoned(op, session, gen, _) =>
      Waits(db, op, StopRequested) && db.stops[op].target.session == session && db.stops[op].target.gen == gen
    case AcceptRisk(d) => AcceptChecks(db, d)
  }

  // --- restores -----------------------------------------------------------------------------

  /** An old runtime is restored once its Pair is at rest, and once per authorization. */
  predicate RestoreReserveChecks(db: DB, op: Id, tuple: RestoreTuple) {
    && op !in db.restores
    && tuple.pair in db.sessions && db.sessions[tuple.pair] == Session(tuple.session, tuple.expected, SessionTerminated, false)
    && (forall a | a in db.attempts && db.attempts[a].lineage.task in db.tasks && db.tasks[db.attempts[a].lineage.task].pair == tuple.pair ::
          db.attempts[a].ended.Some?)
    && (forall d | d in db.dispatches && db.dispatches[d].bound.pair == tuple.pair && db.dispatches[d].stage == SendRequested :: db.dispatches[d].unknown)
    && (forall o | o in db.stops && db.stops[o].target.pair == tuple.pair ::
          db.stops[o].resolution !in {InFlight, CallOutcomeUnknown, ConfirmationTimeout, ReissueRequiresHuman})
    && forall r | r in db.restores :: db.restores[r].tuple.authorization != tuple.authorization
  }

  predicate ResumeChecks(db: DB, s: RestoreOp)
    requires !s.ResolveAmbiguous?
  {
    match s
    case ReserveRestore(op, tuple) => RestoreReserveChecks(db, op, tuple)
    case UnknownRestore(op) => op in db.restores && db.restores[op].resolution == RestoreInFlight
    case ClassifyInterrupted(op) => op in db.restores && db.restores[op].resolution == RestoreInFlight && db.restores[op].stage == RestoreRequested
    case ConfirmRestore(op, session, oldGen, _, _, _) =>
      && op in db.restores && db.restores[op].resolution == RestoreInFlight && db.restores[op].stage == RestoreRequested
      && db.restores[op].tuple.session == session && db.restores[op].tuple.expected == oldGen
    case ResolveConfirmed(op, session, gen, activity, principal, _) =>
      && op in db.restores && db.restores[op].stage == RestoreConfirmed
      && db.restores[op].tuple.session == session && db.restores[op].observed == Some(gen)
      && activity in {ActivityIdle, ActivityWaitingInput}
      && (db.restores[op].resolution == RestoreInFlight || (db.restores[op].resolution == RecoveryClaimed && db.restores[op].principal == Some(principal)))
    case ClaimRecovery(op, pair, session, gen, _, _) =>
      && op in db.restores && db.restores[op].tuple.pair == pair && db.restores[op].tuple.session == session
      && (db.restores[op].resolution == RestoreOutcomeUnknown || (db.restores[op].resolution == RestoreInFlight && db.restores[op].stage == RestoreConfirmed))
      && (gen == db.restores[op].tuple.expected || db.restores[op].observed == Some(gen))
    case ClaimCleanup(op, t, principal, seen) =>
      && op !in db.stops && t.restore.Some? && t.restore.value in db.restores
      && var r := db.restores[t.restore.value];
      && r.resolution == RecoveryClaimed && r.principal == Some(principal) && r.tuple.pair == t.pair && r.tuple.session == t.session
      && match t.purpose
         case RunningAttemptStop => false
         case PairMaintenance => t.lineage == None && seen == Some(Observation(t.session, t.gen, false)) && r.observed in {None, Some(t.gen)}
         case QuarantineCleanup =>
           && Names(db, t) && t.gen == r.tuple.expected
           && db.attempts[t.lineage.value.attempt].ended.Some? && db.attempts[t.lineage.value.attempt].quarantined
  }

  // --- what holds anyway --------------------------------------------------------------------

  /** An attempt's lineage is whole, and its Pair's session is the one it ran on. */
  predicate AttemptSound(db: DB, a: Id) {
    && a in db.attempts
    && var r := db.attempts[a];
    && r.lineage.task in db.tasks
    && var pair := db.tasks[r.lineage.task].pair;
    && AuditLineage(db, pair, r.lineage.task, r.lineage.contract, a)
    && r.lineage.number <= db.tasks[r.lineage.task].current
    && pair in db.sessions && db.sessions[pair].session == r.lineage.session
    && (r.ended == None ==> db.sessions[pair].gen == r.lineage.gen)
    && (r.quarantined ==> db.sessions[pair].quarantined)
    && (r.lineage.number == db.tasks[r.lineage.task].current && OpenState(db.tasks[r.lineage.task].state) ==> r.ended == None)
  }

  lemma AttemptFacts(db: DB, a: Id)
    requires Inv(db) && a in db.attempts
    ensures AttemptSound(db, a)
  {
    assert AttemptRefs(db.tasks, db.contracts, db.attempts) && CurrentIsOpen(db.tasks, db.attempts) && SessionInv(db.tasks, db.attempts, db.sessions);
  }

  predicate DispatchSound(db: DB, d: Id) {
    && d in db.dispatches
    && var b := db.dispatches[d].bound;
    && AttemptSound(db, b.attempt)
    && var l := db.attempts[b.attempt].lineage;
    && l.task == b.task && l.session == b.session && l.gen == b.gen && db.tasks[b.task].pair == b.pair
    && (db.dispatches[d].unknown ==> db.dispatches[d].stage == SendRequested)
    && (db.dispatches[d].stage != SendConfirmed ==>
          db.dispatches[d].confirmedAt == None && b.attempt !in db.budgets && forall k | k in db.budgets :: db.budgets[k].op != d)
  }

  lemma DispatchFacts(db: DB, d: Id)
    requires Inv(db) && d in db.dispatches
    ensures DispatchSound(db, d)
  {
    assert DispatchRefs(db.tasks, db.attempts, db.dispatches) && BudgetInv(db.dispatches, db.budgets);
    AttemptFacts(db, db.dispatches[d].bound.attempt);
  }

  /** A Pair with a session is provisioned, and a clean session has no unresolved restore. */
  ghost predicate PairSound(db: DB, pair: Id) {
    && (pair in db.sessions ==> !UnresolvedProvision(db.provisions, pair))
    && (forall r | Unresolved(db.restores, r, pair) :: pair in db.sessions && db.sessions[pair].quarantined)
    && (forall o | o in db.stops && db.stops[o].target.pair == pair :: pair in db.sessions)
    && forall a | OnPair(db.tasks, db.attempts, a, pair) :: AttemptSound(db, a)
  }

  lemma PairFacts(db: DB, pair: Id)
    requires Inv(db)
    ensures PairSound(db, pair)
  {
    assert ProvisionInv(db.provisions, db.sessions) && RestoreInv(db.restores, db.sessions) && Invariants.StopRows(db.tasks, db.attempts, db.sessions, db.stops);
    forall a | OnPair(db.tasks, db.attempts, a, pair) ensures AttemptSound(db, a) { AttemptFacts(db, a); }
  }

  predicate StopSound(db: DB, o: Id) {
    && o in db.stops
    && var row := db.stops[o]; var t := row.target;
    && StopRow(row)
    && t.pair in db.sessions && db.sessions[t.pair].session == t.session
    && (if t.purpose == PairMaintenance then t.lineage == None else LineageMatches(db, t) && AttemptSound(db, t.lineage.value.attempt))
    && (row.resolution == InFlight || row.resolution == ReissueRequiresHuman || row.resolution == ConfirmationTimeout || row.resolution == CallOutcomeUnknown
        ==> OwnerAdmits(db.restores, t))
    && (t.restore.Some? ==>
          && t.restore.value in db.restores && db.restores[t.restore.value].tuple.pair == t.pair
          && db.restores[t.restore.value].resolution in {CleanupClaimed, RestoreResolved})
  }

  lemma StopFacts(db: DB, o: Id)
    requires Inv(db) && o in db.stops
    ensures StopSound(db, o)
  {
    StopTheorems.StopRow1(db, o);
    assert StopOwners(db.stops, db.restores);
    if db.stops[o].target.lineage.Some? { AttemptFacts(db, db.stops[o].target.lineage.value.attempt); }
  }

  predicate RestoreSound(db: DB, r: Id) {
    && r in db.restores
    && var row := db.restores[r];
    && RestoreChecks(row)
    && (row.resolution != RestoreResolved ==>
          && row.tuple.pair in db.sessions && db.sessions[row.tuple.pair].session == row.tuple.session
          && db.sessions[row.tuple.pair].gen == (if row.observed.Some? then row.observed.value else row.tuple.expected)
          && db.sessions[row.tuple.pair].quarantined)
    && (row.resolution != CleanupClaimed && row.resolution != RestoreResolved ==> forall o | o in db.stops :: db.stops[o].target.restore != Some(r))
  }

  lemma RestoreFacts(db: DB, r: Id)
    requires Inv(db) && r in db.restores
    ensures RestoreSound(db, r)
  {
    assert RestoreInv(db.restores, db.sessions) && StopOwners(db.stops, db.restores);
  }

  // --- exactly these ------------------------------------------------------------------------

  lemma EdgesExact(from: TaskState, to: TaskState)
    ensures Edge(from, to) <==> CanTransition(from, to) && !(from.Ready? && to.Dispatched?)
  {}

  lemma LaneIsOwn(db: DB, task: Id)
    requires Inv(db) && task in db.tasks && db.tasks[task].state == Dispatched
    ensures !LaneBusy(db.tasks, db.tasks[task].pair, task)
  {
    assert OneLane(db.tasks);
  }

  lemma TransitionAdmission(db: DB, task: Id, from: TaskState, to: TaskState)
    requires Inv(db)
    ensures TransitionAdmits(db, task, from, to) <==> TaskChecks(db, Transition(task, from, to))
  {
    hide Inv, CanTransition, Edge, ReadyContract, DraftedContract;
    EdgesExact(from, to);
    if task in db.tasks && db.tasks[task].state == from {
      if from == Failed { LineageTheorems.FailedIsFrozen(db, task); }
      if from == Dispatched { LaneIsOwn(db, task); }
      OnlyDispatchedRuns(from, to);
      if from in {Draft, RevisionRequired} { DraftedIff(db, task, from); }
    }
  }

  lemma DraftedIff(db: DB, task: Id, from: TaskState)
    requires from in {Draft, RevisionRequired}
    ensures ReadyContract(db, task, from) <==> DraftedContract(db, task)
  {}

  lemma OnlyDispatchedRuns(from: TaskState, to: TaskState)
    ensures CanTransition(from, to) && to == Running ==> from == Dispatched
    ensures CanTransition(from, to) && to == Reviewing ==> from == EvidenceReady
    ensures CanTransition(from, to) && to == Ready ==> from in {Draft, RevisionRequired, Failed}
  {}

  lemma ContractAdmission(db: DB, s: TaskOp)
    requires Inv(db) && s.InsertContract?
    ensures TaskAllowed(db, s) <==> TaskChecks(db, s)
  {
    assert ContractRows(db.tasks, db.contracts);
    hide Inv;
  }

  lemma TaskAdmission(db: DB, s: TaskOp)
    requires Inv(db)
    ensures TaskAllowed(db, s) <==> TaskChecks(db, s)
  {
    hide Inv;
    if s.Transition? { TransitionAdmission(db, s.task, s.from, s.to); }
    if s.InsertContract? { ContractAdmission(db, s); }
  }

  lemma PairAdmission(db: DB, s: PairOp)
    requires Inv(db) && !s.Clear?
    ensures PairAllowed(db, s) <==> PairChecks(db, s)
  {
    assert ProvisionInv(db.provisions, db.sessions);
    hide Inv;
    if s.ReserveProvision? { ProvisionAdmission(db, s.op, s.pair); }
    if s.UpdateStatus? { PairFacts(db, s.pair); }
  }

  lemma NoSessionNoAttempt(db: DB, pair: Id)
    requires PairSound(db, pair)
    ensures pair !in db.sessions ==> !OpenAttemptOn(db, pair)
  {}

  /** A Pair that was never provisioned has no session, so no attempt, stop or restore either. */
  lemma ProvisionAdmission(db: DB, op: Id, pair: Id)
    requires Inv(db)
    ensures ReserveProvisionAdmits(db, op, pair) <==> PairChecks(db, ReserveProvision(op, pair))
  {
    assert ProvisionInv(db.provisions, db.sessions);
    hide Inv, OpenAttemptOn, CurrentExists, OpenState;
    PairFacts(db, pair);
    forall t | t in db.tasks ensures TaskSound(db, t) { TaskFacts(db, t); }
    assert pair !in db.sessions ==> !OpenAttemptOn(db, pair) by { NoSessionNoAttempt(db, pair); }
  }

  /** The attempts of a task, up to the current one, exist and ran on its Pair's session. */
  ghost predicate TaskSound(db: DB, t: Id) {
    && t in db.tasks
    && (db.tasks[t].current > 0 ==> CurrentExists(db, t) && db.tasks[t].pair in db.sessions)
    && (FrozenState(db.tasks[t].state) ==> db.tasks[t].current > 0)
    && (OpenState(db.tasks[t].state) ==> OpenAttemptOn(db, db.tasks[t].pair))
  }

  lemma TaskFacts(db: DB, t: Id)
    requires Inv(db) && t in db.tasks
    ensures TaskSound(db, t)
  {
    assert CurrentIsOpen(db.tasks, db.attempts);
    var n := db.tasks[t].current;
    if n > 0 {
      LineageTheorems.Attempts1(db, t);
      assert Numbered(db.attempts, t, n);
      var a :| HasNumber(db.attempts, a, t, n);
      AttemptFacts(db, a);
      assert IsCurrent(db.tasks, db.attempts, a) && OnPair(db.tasks, db.attempts, a, db.tasks[t].pair);
    }
  }

  lemma PrepareAdmission(db: DB, s: DispatchOp)
    requires Inv(db) && s.Prepare?
    ensures DispatchAllowed(db, s) <==> DispatchChecks(db, s)
  {
    hide Inv;
    if s.x.task in db.tasks { PairFacts(db, db.tasks[s.x.task].pair); }
    forall a | a in db.attempts ensures AttemptSound(db, a) { AttemptFacts(db, a); }
    forall d | d in db.dispatches ensures db.dispatches[d].bound.attempt in db.attempts { DispatchFacts(db, d); }
  }

  lemma SendAdmission(db: DB, s: DispatchOp)
    requires Inv(db) && !s.Prepare?
    ensures DispatchAllowed(db, s) <==> DispatchChecks(db, s)
  {
    hide Inv;
    if s.op in db.dispatches {
      DispatchFacts(db, s.op);
      PairFacts(db, db.dispatches[s.op].bound.pair);
    }
  }

  lemma ExecutionAdmission(db: DB, s: ExecutionOp)
    requires Inv(db) && (s.Terminal? || s.Closure?)
    ensures ExecutionAllowed(db, s) <==> ExecutionChecks(db, s)
  {
    hide Inv;
    if s.attempt in db.attempts { AttemptFacts(db, s.attempt); }
  }

  lemma ObserveAdmission(db: DB, s: ExecutionOp)
    requires Inv(db) && (s.RecordOutage? || s.Observe?)
    ensures ExecutionAllowed(db, s) <==> ExecutionChecks(db, s)
  {
    hide Inv, StopOwned;
    if s.x.op in db.dispatches {
      DispatchFacts(db, s.x.op);
      if HasExecution(db, s.x.op) && s.x == ExecutionOf(db, s.x.op) { StopOwnedIff(db, s.x); }
    }
  }

  /** A live stop that names the attempt names its whole lineage. */
  lemma StopOwnedIff(db: DB, x: Execution)
    requires Inv(db) && x.op in db.dispatches && HasExecution(db, x.op) && x == ExecutionOf(db, x.op)
    ensures StopOwned(db.stops, x) <==> exists o | o in db.stops && db.stops[o].target.purpose == RunningAttemptStop && db.stops[o].target.lineage.Some? ::
              db.stops[o].target.lineage.value.attempt == x.attempt
  {
    hide Inv;
    DispatchFacts(db, x.op);
    forall o | o in db.stops && db.stops[o].target.purpose == RunningAttemptStop && db.stops[o].target.lineage.Some? && db.stops[o].target.lineage.value.attempt == x.attempt
      ensures db.stops[o].target == db.stops[o].target.(pair := x.pair, lineage := Some(StopLineage(x.task, x.contract, x.attempt)), session := x.session, gen := x.gen)
    {
      StopFacts(db, o);
    }
  }

  lemma ReserveAdmission(db: DB, op: Id, t: StopTarget)
    requires Inv(db)
    ensures ReserveStopAdmits(db, op, t) <==> ReserveChecks(db, op, t)
  {
    hide Inv;
    PairFacts(db, t.pair);
    if t.lineage.Some? && t.lineage.value.attempt in db.attempts {
      AttemptFacts(db, t.lineage.value.attempt);
      if t.timeout && t.lineage.value.attempt in db.budgets { DueFacts(db, t.lineage.value.attempt); }
    }
  }

  /** A budget belongs to the confirmed operation of its attempt. */
  predicate BudgetSound(db: DB, a: Id) {
    && a in db.budgets
    && var b := db.budgets[a];
    && b.op in db.dispatches && DispatchSound(db, b.op)
    && db.dispatches[b.op].bound.attempt == a && db.dispatches[b.op].stage == SendConfirmed
    && b.duration > 0 && b.deadline == b.origin + b.duration
  }

  lemma DueFacts(db: DB, a: Id)
    requires Inv(db) && a in db.budgets
    ensures BudgetSound(db, a)
  {
    assert BudgetInv(db.dispatches, db.budgets);
    DispatchFacts(db, db.budgets[a].op);
  }

  lemma OutcomeAdmission(db: DB, op: Id, o: Outcome)
    requires Inv(db)
    ensures StopOutcomeAdmits(db, op, o) <==> op in db.stops && OutcomeChecks(db.stops[op], o) && RuntimeChecks(db, db.stops[op].target)
  {
    hide Inv;
    if op in db.stops { StopFacts(db, op); }
  }

  lemma AnswerAdmission(db: DB, s: StopOp)
    requires Inv(db) && (s.CallAccepted? || s.ClassifyAbandoned?)
    ensures StopAllowed(db, s) <==> StopChecks(db, s)
  {
    hide Inv;
    if s.op in db.stops { StopFacts(db, s.op); }
  }

  lemma AcceptAdmission(db: DB, d: Decision)
    requires Inv(db)
    ensures AcceptRiskAdmits(db, d) <==> AcceptChecks(db, d)
  {
    hide Inv, LineageAtRisk, RiskOf, OwnerAdmits, StopSound;
    assert |d.evidence| > 0 <==> d.evidence != [];
    assert |d.lineages| > 0 <==> d.lineages != [];
    if d.stop in db.stops {
      StopFacts(db, d.stop);
      DecidedRow(db, d);
      var row := db.stops[d.stop];
      if row.target.session == d.session && row.target.pair == d.pair && row.stage == d.expectedStage && row.resolution == d.expectedResolution {
        forall i | 0 <= i < |d.lineages| ensures LineageAtRisk(db, d, db.stops[d.stop], d.lineages[i]) <==> RiskOf(db, d, db.stops[d.stop].target, d.lineages[i]) {
          RiskAdmission(db, d, d.lineages[i]);
        }
      }
    }
  }

  /** Class B is decided by the resolution alone, and the owner by the restores of the Pair. */
  lemma DecidedRow(db: DB, d: Decision)
    requires StopSound(db, d.stop)
    ensures var row := db.stops[d.stop]; var t := row.target;
      && (row.resolution == TargetAbsent <==> row.stage == StopTargetAbsent)
      && (OwnerAdmits(db.restores, t) <==> match t.restore
            case None => forall r | r in db.restores && db.restores[r].tuple.pair == t.pair :: db.restores[r].resolution == RestoreResolved
            case Some(r) => r in db.restores && db.restores[r].resolution == CleanupClaimed)
  {}

  lemma RiskAdmission(db: DB, d: Decision, l: LineageRef)
    requires Inv(db) && StopSound(db, d.stop)
    requires db.stops[d.stop].target.pair == d.pair && db.stops[d.stop].target.session == d.session
    requires d.expectedResolution == TargetAbsent <==> d.expectedStage == StopTargetAbsent
    ensures LineageAtRisk(db, d, db.stops[d.stop], l) <==> RiskOf(db, d, db.stops[d.stop].target, l)
  {
    hide Inv, OwnerAdmits;
    if l.attempt.Some? && l.attempt.value in db.attempts { AttemptFacts(db, l.attempt.value); }
  }

  lemma RestoreAdmission(db: DB, s: RestoreOp)
    requires Inv(db) && !s.ResolveAmbiguous? && !s.ReserveRestore?
    ensures RestoreAllowed(db, s) <==> ResumeChecks(db, s)
  {
    hide Inv;
    if s.ClaimCleanup? {
      if s.target.restore.Some? && s.target.restore.value in db.restores { RestoreFacts(db, s.target.restore.value); }
      if s.target.lineage.Some? && s.target.lineage.value.attempt in db.attempts { AttemptFacts(db, s.target.lineage.value.attempt); }
    } else if s.op in db.restores {
      RestoreFacts(db, s.op);
    }
  }

  lemma ReserveRestoreAdmission(db: DB, op: Id, tuple: RestoreTuple)
    requires Inv(db)
    ensures ReserveRestoreAdmits(db, op, tuple) <==> RestoreReserveChecks(db, op, tuple)
  {
    hide Inv;
    PairFacts(db, tuple.pair);
    forall t | t in db.tasks ensures TaskSound(db, t) { TaskFacts(db, t); }
  }

  /** ClearQuarantineWithEvidence and ResolveAmbiguousRestore weigh evidence (EvidenceTheorems). */
  predicate Weighs(s: Step) {
    (s.PairStep? && s.pair.Clear?) || (s.RestoreStep? && s.restore.ResolveAmbiguous?)
  }

  predicate Checks(db: DB, s: Step)
    requires !Weighs(s)
  {
    match s
    case TaskStep(t) => TaskChecks(db, t)
    case PairStep(t) => PairChecks(db, t)
    case DispatchStep(t) => DispatchChecks(db, t)
    case ExecutionStep(t) => ExecutionChecks(db, t)
    case StopStep(t) => StopChecks(db, t)
    case RestoreStep(t) => ResumeChecks(db, t)
  }

  lemma StepAdmission(db: DB, s: Step)
    requires Inv(db) && !Weighs(s)
    ensures Allowed(db, s) <==> Checks(db, s)
  {
    hide Inv, TaskAllowed, PairAllowed, DispatchAllowed, ExecutionAllowed, TaskChecks, PairChecks, DispatchChecks, ExecutionChecks;
    hide ReserveStopAdmits, StopOutcomeAdmits, AcceptRiskAdmits, ReserveChecks, OutcomeChecks, RuntimeChecks, AcceptChecks, CallAcceptedAdmits, AbandonedAdmits;
    hide ReserveRestoreAdmits, RestoreReserveChecks;
    match s
    case TaskStep(t) => TaskAdmission(db, t);
    case PairStep(t) => PairAdmission(db, t);
    case DispatchStep(t) => if t.Prepare? { PrepareAdmission(db, t); } else { SendAdmission(db, t); }
    case ExecutionStep(t) => if t.Terminal? || t.Closure? { ExecutionAdmission(db, t); } else { ObserveAdmission(db, t); }
    case StopStep(ReserveStop(op, t)) => ReserveAdmission(db, op, t);
    case StopStep(CommitOutcome(op, o)) => OutcomeAdmission(db, op, o);
    case StopStep(AcceptRisk(d)) => AcceptAdmission(db, d);
    case StopStep(t) => AnswerAdmission(db, t);
    case RestoreStep(ReserveRestore(op, tuple)) => ReserveRestoreAdmission(db, op, tuple);
    case RestoreStep(t) => RestoreAdmission(db, t);
  }

  /** In every state of every run a transaction commits exactly when these checks hold. */
  lemma CommitsIff(states: seq<DB>, steps: seq<Step>, i: nat, s: Step)
    requires Run(states, steps) && i <= |steps| && !Weighs(s)
    ensures Allowed(states[i], s) <==> Checks(states[i], s)
  {
    hide Inv, Allowed, Effect, Checks;
    Runs.Always(states, steps, i);
    StepAdmission(states[i], s);
  }
}
