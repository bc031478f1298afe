/** internal/store/stop_transactions.go and createStopOperationTx of session_lifecycle.go. */
module StopTransactions {
  import opened Domain
  import opened Tables

  // --- shared guards ------------------------------------------------------------

  predicate StopAudit(db: DB, t: StopTarget) {
    t.lineage.Some? ==> AuditLineage(db, t.pair, t.lineage.value.task, t.lineage.value.contract, t.lineage.value.attempt)
  }

  /** guardStopRestoreOwner: an unresolved restore admits only the stop it claimed. */
  predicate OwnerAdmits(restores: map<Id, Restore>, t: StopTarget) {
    match t.restore
    case None => !UnresolvedRestore(restores, t.pair)
    case Some(r) => Unresolved(restores, r, t.pair) && restores[r].resolution.CleanupClaimed?
  }

  /** The attempt row of a stop, with the snapshot the stop names. */
  predicate LineageMatches(db: DB, t: StopTarget) {
    && t.lineage.Some?
    && var l := t.lineage.value;
    && OnPair(db.tasks, db.attempts, l.attempt, t.pair)
    && db.attempts[l.attempt].lineage.task == l.task
    && db.attempts[l.attempt].lineage.contract == l.contract
    && db.attempts[l.attempt].lineage.session == t.session
    && db.attempts[l.attempt].lineage.gen == t.gen
  }

  /** idx_one_live_stop_per_attempt. */
  predicate LiveStopFor(stops: map<Id, Stop>, attempt: Id) {
    exists o | o in stops ::
      && stops[o].target.purpose.RunningAttemptStop? && stops[o].target.lineage.Some?
      && stops[o].target.lineage.value.attempt == attempt
  }

  // --- ReserveStopOperation -------------------------------------------------------

  /** The immutable budget whose deadline a TIMEOUT stop must have reached. */
  predicate TimeoutDue(db: DB, t: StopTarget) {
    && LineageMatches(db, t)
    && var l := t.lineage.value;
    && l.attempt in db.budgets
    && var b := db.budgets[l.attempt];
    && b.op in db.dispatches
    && var d := db.dispatches[b.op];
    && d.bound.attempt == l.attempt && d.bound.pair == t.pair && d.bound.task == l.task
    && t.pair in db.sessions && SessionIs(db.sessions, t.pair, t.session, t.gen)
    && b.duration > 0 && b.origin + b.duration == b.deadline
    && d.stage.SendConfirmed?
    && d.bound.session == t.session && d.bound.gen == t.gen
    && !db.attempts[l.attempt].quarantined && !db.sessions[t.pair].quarantined
    && (db.attempts[l.attempt].disposition.None? || db.attempts[l.attempt].disposition == Some(AoWaitingInputObserved))
    && b.deadline <= t.requestedAt
  }

  predicate ReserveStopAdmits(db: DB, op: Id, t: StopTarget) {
    && t.restore.None?
    && (t.timeout ==> t.purpose.RunningAttemptStop?)
    && SessionIs(db.sessions, t.pair, t.session, t.gen)
    && !PendingStopOn(db.stops, t.pair)
    && (match t.purpose
        case RunningAttemptStop =>
          && LineageMatches(db, t)
          && CurrentOpen(db, t.lineage.value.task, t.lineage.value.attempt)
          && db.tasks[t.lineage.value.task].state.Running?
          && (t.timeout ==> TimeoutDue(db, t))
          && !LiveStopFor(db.stops, t.lineage.value.attempt)
        case QuarantineCleanup =>
          && LineageMatches(db, t)
          && db.attempts[t.lineage.value.attempt].ended.Some?
          && db.attempts[t.lineage.value.attempt].quarantined
          && (db.tasks[t.lineage.value.task].state.Failed? || db.tasks[t.lineage.value.task].state.HumanRequired?)
        case PairMaintenance => t.lineage.None?)
    && !UnresolvedRestore(db.restores, t.pair)
    && !UnresolvedProvision(db.provisions, t.pair)
    && op !in db.stops
    && StopAudit(db, t)
  }

  function NewStop(t: StopTarget): Stop {
    Stop(t, StopRequested, None, None, None, None, InFlight)
  }

  function ReserveStopCommit(db: DB, op: Id, t: StopTarget): DB
    requires t.pair in db.sessions
    requires t.purpose.RunningAttemptStop? ==> t.lineage.Some? && t.lineage.value.attempt in db.attempts
  {
    db.(stops := db.stops[op := NewStop(t)],
        stopOrder := db.stopOrder + [op],
        sessions := WithQuarantine(db.sessions, t.pair),
        attempts :=
          if t.purpose.RunningAttemptStop?
          then var a := t.lineage.value.attempt; db.attempts[a := db.attempts[a].(quarantined := true)]
          else db.attempts,
        log := db.log + [Note(StopRequestedNote, op)])
  }

  // --- ValidateTimeoutEffectOwner -----------------------------------------------------

  predicate TimeoutEffectOwner(db: DB, op: Id) {
    && op in db.stops
    && var o := db.stops[op];
    && var t := o.target;
    && t.timeout && t.purpose.RunningAttemptStop? && o.stage.StopRequested? && o.resolution.InFlight?
    && LineageMatches(db, t)
    && var l := t.lineage.value;
    && CurrentOpen(db, l.task, l.attempt)
    && db.tasks[l.task].state.Running?
    && (db.attempts[l.attempt].disposition.None? || db.attempts[l.attempt].disposition == Some(AoWaitingInputObserved))
    && db.attempts[l.attempt].quarantined
    && SessionIs(db.sessions, t.pair, t.session, t.gen) && db.sessions[t.pair].quarantined
    && (exists d | d in db.dispatches ::
          db.dispatches[d].bound.attempt == l.attempt && db.dispatches[d].stage.SendConfirmed? && !db.dispatches[d].unknown)
    && (forall k | k in db.stops :: k != op && db.stops[k].target.pair == t.pair ==> !PendingResolution(db.stops[k].resolution))
    && !UnresolvedRestore(db.restores, t.pair)
    && !UnresolvedProvision(db.provisions, t.pair)
    && !UnknownDeliveryOn(db.dispatches, t.pair)
    && (forall a | a in db.attempts :: a != l.attempt && OnPair(db.tasks, db.attempts, a, t.pair) ==> !db.attempts[a].quarantined)
  }

  // --- CommitStopCallAccepted -----------------------------------------------------------

  predicate CallAcceptedAdmits(db: DB, op: Id, callAt: Time, deadline: Time) {
    && callAt < deadline
    && op in db.stops
    && var o := db.stops[op];
    && OwnerAdmits(db.restores, o.target)
    && o.stage.StopRequested? && o.resolution.InFlight?
    && o.callAt.None? && o.deadline.None?
    && StopAudit(db, o.target)
  }

  function CallAcceptedCommit(db: DB, op: Id, callAt: Time, deadline: Time): DB
    requires op in db.stops
  {
    db.(stops := db.stops[op := db.stops[op].(stage := StopCallSucceeded, callAt := Some(callAt), deadline := Some(deadline))],
        log := db.log + [Note(StopCallSucceededNote, op)])
  }

  // --- CommitStopOutcome ------------------------------------------------------------------

  datatype Outcome = Outcome(expected: StopStage, stage: StopStage, resolution: Resolution, at: Time, observed: Option<Observation>)

  predicate ValidStopTransition(from: StopStage, to: StopStage) {
    || from == to
    || (from.StopRequested? && (to.StopCallSucceeded? || to.StopCallFailed? || to.StopTargetAbsent?))
    || (from.StopCallSucceeded? && (to.StopTerminationConfirmed? || to.StopTargetAbsent?))
  }

  predicate ValidStopOutcome(o: Outcome) {
    match o.resolution
    case TerminationConfirmed => o.expected.StopCallSucceeded? && o.stage.StopTerminationConfirmed?
    case TargetAbsent => o.stage.StopTargetAbsent?
    case CallFailed => o.expected.StopRequested? && o.stage.StopCallFailed?
    case ConfirmationTimeout => o.expected.StopCallSucceeded? && o.stage.StopCallSucceeded?
    case GenerationMismatch => o.stage == o.expected
    case EffectUnproven => o.expected.StopRequested? && o.stage.StopRequested?
    case CallOutcomeUnknown => o.expected.StopRequested? && o.stage.StopRequested?
    case _ => false
  }

  predicate Physical(o: Outcome) { o.stage.StopTerminationConfirmed? && o.resolution.TerminationConfirmed? }

  /** What the observation and the clock must show for the chosen result. */
  predicate OutcomeProved(stop: Stop, o: Outcome) {
    && (if Physical(o)
        then
          && o.expected.StopCallSucceeded? && stop.callAt.Some? && stop.deadline.Some?
          && stop.callAt.value <= o.at < stop.deadline.value
          && o.observed == Some(Observation(stop.target.session, stop.target.gen, true))
        else !o.stage.StopTerminationConfirmed? && !o.resolution.TerminationConfirmed?)
    && (o.resolution.GenerationMismatch? ==>
          o.observed.Some? && o.observed.value.session == stop.target.session && o.observed.value.gen != stop.target.gen)
    && (o.resolution.EffectUnproven? ==>
          o.observed == Some(Observation(stop.target.session, stop.target.gen, true)))
  }

  predicate OutcomeFits(stop: Stop, o: Outcome) {
    && stop.stage == o.expected && stop.resolution.InFlight? && ValidStopTransition(o.expected, o.stage)
    && OutcomeProved(stop, o)
    && ValidStopOutcome(o)
  }

  /** closeLiveStopTx: every row its four CAS updates need. */
  predicate CloseLiveAdmits(db: DB, t: StopTarget) {
    && LineageMatches(db, t)
    && CurrentOpen(db, t.lineage.value.task, t.lineage.value.attempt)
    && db.tasks[t.lineage.value.task].state.Running?
    && SessionIs(db.sessions, t.pair, t.session, t.gen)
  }

  /** A non-live stop touches the runtime only while its generation is still the current one. */
  predicate RuntimeAdmits(db: DB, t: StopTarget) {
    && t.pair in db.sessions && db.sessions[t.pair].session == t.session
    && (db.sessions[t.pair].gen == t.gen || (t.restore.Some? && t.purpose.QuarantineCleanup?))
  }

  predicate StopOutcomeAdmits(db: DB, op: Id, o: Outcome) {
    && op in db.stops
    && var stop := db.stops[op];
    && OwnerAdmits(db.restores, stop.target)
    && OutcomeFits(stop, o)
    && StopAudit(db, stop.target)
    && (if stop.target.purpose.RunningAttemptStop? then CloseLiveAdmits(db, stop.target) else RuntimeAdmits(db, stop.target))
  }

  function Settle(stop: Stop, o: Outcome): Stop {
    stop.(stage := o.stage, resolution := o.resolution, resolvedAt := Some(o.at),
          confirmedAt := if Physical(o) then Some(o.at) else None)
  }

  function OutcomeEvent(op: Id, stop: Stop, o: Outcome): Event {
    var t := stop.target;
    if Physical(o) && stop.deadline.Some? && o.observed.Some?
    then StopConfirmedEvent(op, t.pair, t.lineage, t.session, t.gen, t.restore, stop.deadline.value, o.at, o.observed.value)
    else if o.resolution.TargetAbsent? then StopTargetAbsentEvent(op, t.pair)
    else Note(StopOutcomeNote, op)
  }

  function StopDisposition(o: Outcome): Disposition {
    if Physical(o) then WorkerStopped
    else match o.resolution
      case TargetAbsent => SessionAbsent
      case ConfirmationTimeout => StopConfirmationTimedOut
      case GenerationMismatch => StopGenerationMismatched
      case CallOutcomeUnknown => StopCallUnknown
      case _ => WorkerTerminationUnknown
  }

  /** Any risk on the Pair other than the attempt being closed. */
  predicate OtherRisk(db: DB, pair: Id, attempt: Id) {
    || (exists a | a in db.attempts :: a != attempt && OnPair(db.tasks, db.attempts, a, pair) && db.attempts[a].quarantined)
    || UnresolvedRestore(db.restores, pair)
    || UnknownDeliveryOn(db.dispatches, pair)
  }

  /** appendStopAudit of QUARANTINE_RESOLVED_PHYSICAL, once for the attempt and once for the session. */
  function LiveClearedEvent(op: Id, t: StopTarget): Event
    requires t.lineage.Some?
  {
    LineageClearedEvent(t.pair, LineageRef(Some(t.lineage.value.attempt), t.session, t.gen), op, true, TargetGeneration)
  }

  function CloseLive(db: DB, op: Id, t: StopTarget, o: Outcome): DB
    requires t.lineage.Some? && t.lineage.value.task in db.tasks && t.lineage.value.attempt in db.attempts
    requires t.pair in db.sessions
  {
    var l := t.lineage.value;
    var s := db.sessions[t.pair];
    db.(tasks := db.tasks[l.task := db.tasks[l.task].(state := Failed)],
        attempts := db.attempts[l.attempt :=
          db.attempts[l.attempt].(ended := Some(o.at), disposition := Some(StopDisposition(o)), quarantined := !Physical(o))],
        sessions := db.sessions[t.pair :=
          s.(status := if Physical(o) then SessionTerminated else s.status,
             quarantined := !(Physical(o) && !OtherRisk(db, t.pair, l.attempt)))],
        log := db.log + [TaskTransitionEvent(t.pair, l.task, l.attempt, Running, Failed, None)]
                      + (if Physical(o) then [LiveClearedEvent(op, t)] else [])
                      + (if Physical(o) && !OtherRisk(db, t.pair, l.attempt) then [LiveClearedEvent(op, t)] else []))
  }

  function TouchRuntime(db: DB, t: StopTarget, o: Outcome): DB
    requires t.pair in db.sessions
  {
    var s := db.sessions[t.pair];
    if s.gen != t.gen then db
    else db.(sessions := db.sessions[t.pair :=
           s.(status := if Physical(o) then SessionTerminated else s.status, quarantined := true)])
  }

  function StopOutcomeCommit(db: DB, op: Id, o: Outcome): DB
    requires StopOutcomeAdmits(db, op, o)
  {
    var stop := db.stops[op];
    var marked := db.(stops := db.stops[op := Settle(stop, o)], log := db.log + [OutcomeEvent(op, stop, o)]);
    if stop.target.purpose.RunningAttemptStop? then CloseLive(marked, op, stop.target, o)
    else TouchRuntime(marked, stop.target, o)
  }

  // --- ClassifyAbandonedStopAlive ---------------------------------------------------------

  predicate AbandonedReplayed(db: DB, op: Id, session: Id, gen: Id) {
    && op in db.stops
    && db.stops[op].target.session == session && db.stops[op].target.gen == gen
    && db.stops[op].stage.StopRequested? && db.stops[op].resolution.ReissueRequiresHuman?
  }

  predicate AbandonedAdmits(db: DB, op: Id, session: Id, gen: Id) {
    && op in db.stops
    && var o := db.stops[op];
    && o.target.session == session && o.target.gen == gen
    && o.stage.StopRequested? && o.resolution.InFlight?
    && OwnerAdmits(db.restores, o.target)
    && StopAudit(db, o.target)
  }

  function AbandonedCommit(db: DB, op: Id, at: Time): DB
    requires op in db.stops
  {
    db.(stops := db.stops[op := db.stops[op].(resolution := ReissueRequiresHuman, resolvedAt := Some(at))],
        log := db.log + [Note(StopOutcomeNote, op)])
  }

  // --- AcceptStopAdministrativeRisk ----------------------------------------------------------

  datatype Decision = Decision(
    stop: Id, pair: Id, session: Id, gen: Id, purpose: Purpose, attempt: Option<Id>, restore: Option<Id>,
    expectedStage: StopStage, expectedResolution: Resolution, principal: Id, reason: Id,
    evidence: seq<Id>, lineages: seq<LineageRef>, at: Time)

  function StopAttempt(t: StopTarget): Option<Id> {
    if t.lineage.Some? then Some(t.lineage.value.attempt) else None
  }

  function DecisionClass(d: Decision): RiskClass {
    if d.expectedResolution.TargetAbsent? && d.expectedStage.StopTargetAbsent? then ClassB else ClassC
  }

  predicate DecisionNames(stop: Stop, d: Decision) {
    && stop.target.pair == d.pair && stop.target.session == d.session && stop.target.gen == d.gen
    && stop.target.purpose == d.purpose && StopAttempt(stop.target) == d.attempt && stop.target.restore == d.restore
    && stop.stage == d.expectedStage
    && (DecisionClass(d).ClassC? ==>
          d.expectedResolution !in {InFlight, TerminationConfirmed, RiskAccepted, TargetAbsent})
  }

  predicate PriorAcceptance(log: seq<Event>, stop: Id) {
    exists e | e in log :: e.RiskAcceptedEvent? && e.stop == stop
  }

  /** One lineage named by a decision is a quarantined lineage of the stop's Pair. */
  predicate LineageAtRisk(db: DB, d: Decision, stop: Stop, l: LineageRef) {
    && l.session == d.session
    && (DecisionClass(d).ClassB? ==>
          && l.session == stop.target.session && l.gen == stop.target.gen
          && (l.attempt.Some? ==> l.attempt == StopAttempt(stop.target)))
    && match l.attempt
       case None => SessionIs(db.sessions, d.pair, l.session, l.gen) && db.sessions[d.pair].quarantined
       case Some(a) =>
         && OnPair(db.tasks, db.attempts, a, d.pair)
         && db.attempts[a].lineage.session == l.session && db.attempts[a].lineage.gen == l.gen
         && db.attempts[a].quarantined
         && AuditLineage(db, d.pair, db.attempts[a].lineage.task, db.attempts[a].lineage.contract, a)
  }

  predicate DistinctLineages(ls: seq<LineageRef>) {
    forall i, j | 0 <= i < j < |ls| :: ls[i].attempt != ls[j].attempt
  }

  predicate AcceptRiskAdmits(db: DB, d: Decision) {
    && d.evidence != [] && d.lineages != []
    && d.stop in db.stops
    && var stop := db.stops[d.stop];
    && DecisionNames(stop, d)
    && !PriorAcceptance(db.log, d.stop)
    && OwnerAdmits(db.restores, stop.target)
    && (stop.target.restore.Some? ==>
          && stop.target.restore.value in db.restores
          && db.restores[stop.target.restore.value].principal == Some(d.principal))
    && stop.resolution == d.expectedResolution
    && (DecisionClass(d).ClassB? ==> StopTargetAbsentEvent(d.stop, d.pair) in db.log)
    && DistinctLineages(d.lineages)
    && forall i | 0 <= i < |d.lineages| :: LineageAtRisk(db, d, stop, d.lineages[i])
  }

  function AcceptanceEvent(d: Decision, l: LineageRef): Event {
    RiskAcceptedEvent(d.stop, d.pair, d.principal, l, DecisionClass(d), d.restore, d.expectedResolution, d.reason, d.evidence)
  }

  function AcceptanceEvents(d: Decision, ls: seq<LineageRef>): seq<Event> {
    seq(|ls|, i requires 0 <= i < |ls| => AcceptanceEvent(d, ls[i]))
  }

  function AcceptRiskCommit(db: DB, d: Decision): DB
    requires d.stop in db.stops
  {
    db.(stops :=
          if DecisionClass(d).ClassC?
          then db.stops[d.stop := db.stops[d.stop].(resolution := RiskAccepted, resolvedAt := Some(d.at))]
          else db.stops,
        log := db.log + AcceptanceEvents(d, d.lineages))
  }

  // --- the evidence later transactions read ------------------------------------------------------

  /** The audit tuple positiveD11StopEvidence joins to a stop row. */
  predicate ConfirmationRecorded(log: seq<Event>, op: Id, o: Stop) {
    && o.callAt.Some? && o.deadline.Some? && o.confirmedAt.Some? && o.resolvedAt.Some?
    && o.callAt.value <= o.confirmedAt.value < o.deadline.value
    && StopConfirmedEvent(op, o.target.pair, o.target.lineage, o.target.session, o.target.gen, o.target.restore,
         o.deadline.value, o.confirmedAt.value, Observation(o.target.session, o.target.gen, true)) in log
  }

  /** The lineage a confirmed stop names must be closed and still quarantined. */
  predicate EvidenceLineage(db: DB, t: StopTarget) {
    if t.purpose.PairMaintenance? then t.lineage.None?
    else LineageMatches(db, t) && db.attempts[t.lineage.value.attempt].ended.Some? && db.attempts[t.lineage.value.attempt].quarantined
  }

  /** The row filters of positiveD11StopEvidence; None leaves a dimension unconstrained. */
  predicate EvidenceFilter(op: Id, t: StopTarget, pair: Id, session: Id, gen: Id, restore: Option<Id>, attempt: Option<Id>, stop: Option<Id>) {
    && t.pair == pair && t.session == session && t.gen == gen
    && (restore.Some? ==> t.restore == restore)
    && (attempt.Some? ==> StopAttempt(t) == attempt)
    && (stop.Some? ==> op == stop.value)
  }

  predicate ConfirmedRow(o: Stop) { o.stage.StopTerminationConfirmed? && o.resolution.TerminationConfirmed? }

  predicate PositiveEvidence(db: DB, pair: Id, session: Id, gen: Id, restore: Option<Id>, attempt: Option<Id>, stop: Option<Id>) {
    exists op | op in db.stops ::
      && EvidenceFilter(op, db.stops[op].target, pair, session, gen, restore, attempt, stop)
      && ConfirmedRow(db.stops[op])
      && ConfirmationRecorded(db.log, op, db.stops[op])
      && EvidenceLineage(db, db.stops[op].target)
  }
}
