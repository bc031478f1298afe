/** internal/store/restore_transactions.go, with ClassifyInterruptedRestore of
    recovery_transactions.go. */
module RestoreTransactions {
  import opened Domain
  import opened Tables
  import opened StopTransactions
  import opened ProvisioningTransactions

  // --- ReservePairRestore ---------------------------------------------------------

  predicate ReserveRestoreAdmits(db: DB, op: Id, tuple: RestoreTuple) {
    && SessionIs(db.sessions, tuple.pair, tuple.session, tuple.expected)
    && !db.sessions[tuple.pair].quarantined
    && db.sessions[tuple.pair].status.SessionTerminated?
    && !OpenAttemptOn(db, tuple.pair)
    && !QuarantinedAttemptOn(db, tuple.pair)
    && (forall d | d in db.dispatches :: db.dispatches[d].bound.pair == tuple.pair && db.dispatches[d].stage.SendRequested? ==> db.dispatches[d].unknown)
    && (forall t | t in db.tasks && db.tasks[t].pair == tuple.pair ::
          && (db.tasks[t].current > 0 ==> CurrentExists(db, t))
          && !(db.tasks[t].state in {Dispatched, Running, Blocked}))
    && !UnresolvedProvision(db.provisions, tuple.pair)
    && !UnresolvedRestore(db.restores, tuple.pair)
    && !PendingStopOn(db.stops, tuple.pair)
    && op !in db.restores
    && forall r | r in db.restores :: db.restores[r].tuple.authorization != tuple.authorization
  }

  function ReserveRestoreCommit(db: DB, op: Id, tuple: RestoreTuple): DB
    requires tuple.pair in db.sessions
  {
    db.(sessions := WithQuarantine(db.sessions, tuple.pair),
        attempts := QuarantineRuntime(db, tuple.pair, tuple.session, tuple.expected),
        restores := db.restores[op := Restore(tuple, None, None, RestoreRequested, RestoreInFlight, None, None, None, None, 0)],
        log := db.log + [Note(RestoreRiskNote, op), Note(RestoreRequestedNote, op)])
  }

  // --- RecordPairRestoreUnknown -----------------------------------------------------

  predicate RestoreUnknownAdmits(db: DB, op: Id) {
    op in db.restores && db.restores[op].resolution.RestoreInFlight?
  }

  function MarkUnknown(r: Restore): Restore { r.(resolution := RestoreOutcomeUnknown, version := r.version + 1) }

  function RestoreUnknownCommit(db: DB, op: Id): DB
    requires op in db.restores
  {
    db.(restores := db.restores[op := MarkUnknown(db.restores[op])], log := db.log + [Note(RestoreUnknownNote, op)])
  }

  // --- ConfirmPairRestore -------------------------------------------------------------

  predicate ConfirmRestoreAdmits(db: DB, op: Id, session: Id, oldGen: Id) {
    && op in db.restores
    && var r := db.restores[op];
    && r.tuple.expected == oldGen && r.stage.RestoreRequested? && r.resolution.RestoreInFlight?
    && SessionIs(db.sessions, r.tuple.pair, session, oldGen)
  }

  function MarkConfirmed(r: Restore, newGen: Id, at: Time): Restore {
    r.(stage := RestoreConfirmed, observed := Some(newGen), http200At := Some(at), version := r.version + 1)
  }

  function ConfirmRestoreCommit(db: DB, op: Id, newGen: Id, status: SessionStatus, at: Time): DB
    requires op in db.restores && db.restores[op].tuple.pair in db.sessions
  {
    var r := db.restores[op];
    var s := db.sessions[r.tuple.pair];
    db.(restores := db.restores[op := MarkConfirmed(r, newGen, at)],
        sessions := db.sessions[r.tuple.pair := Session(s.session, newGen, status, true)],
        log := db.log + [Note(RestoreConfirmedNote, op)])
  }

  // --- ResolveConfirmedRestore ----------------------------------------------------------

  predicate ObservedMatches(db: DB, op: Id, session: Id, gen: Id, activity: Activity) {
    && (activity.ActivityIdle? || activity.ActivityWaitingInput?)
    && op in db.restores
    && var r := db.restores[op];
    && r.tuple.session == session && r.observed == Some(gen) && r.stage.RestoreConfirmed?
    && SessionIs(db.sessions, r.tuple.pair, session, gen)
    && !UnsettledLinkedStop(db.stops, op)
  }

  predicate ResolvedReplayed(db: DB, op: Id, session: Id, gen: Id, activity: Activity, principal: Id) {
    && ObservedMatches(db, op, session, gen, activity)
    && var r := db.restores[op];
    && r.resolution.RestoreResolved? && r.basis == Some(Http200Basis) && r.principal == Some(principal)
  }

  predicate ResolveConfirmedAdmits(db: DB, op: Id, session: Id, gen: Id, activity: Activity, principal: Id) {
    && ObservedMatches(db, op, session, gen, activity)
    && var r := db.restores[op];
    && (r.resolution.RestoreInFlight? || (r.resolution.RecoveryClaimed? && r.principal == Some(principal)))
  }

  function MarkClaimed(r: Restore, principal: Id, at: Time): Restore {
    r.(resolution := RecoveryClaimed, principal := Some(principal), claimedAt := Some(at), version := r.version + 1)
  }

  function MarkResolved(r: Restore, basis: RestoreBasis, at: Time): Restore {
    r.(resolution := RestoreResolved, basis := Some(basis), resolvedAt := Some(at), version := r.version + 1)
  }

  function ResolveConfirmedCommit(db: DB, op: Id, principal: Id, at: Time): DB
    requires op in db.restores
  {
    var r := db.restores[op];
    var claimed := if r.resolution.RestoreInFlight? then MarkClaimed(r, principal, at) else r;
    db.(restores := db.restores[op := MarkResolved(claimed, Http200Basis, at)],
        log := db.log + (if r.resolution.RestoreInFlight? then [Note(RestoreClaimedNote, op)] else [])
                      + [Note(RestoreResolvedNote, op)])
  }

  // --- ClaimRestoreRecovery ---------------------------------------------------------------

  predicate ClaimRecoveryAdmits(db: DB, op: Id, pair: Id, session: Id, gen: Id) {
    && op in db.restores
    && var r := db.restores[op];
    && r.tuple.pair == pair && r.tuple.session == session
    && (r.resolution.RestoreOutcomeUnknown? || (r.resolution.RestoreInFlight? && r.stage.RestoreConfirmed?))
    && (gen == r.tuple.expected || r.observed == Some(gen))
  }

  function ClaimRecoveryCommit(db: DB, op: Id, principal: Id, at: Time): DB
    requires op in db.restores
  {
    db.(restores := db.restores[op := MarkClaimed(db.restores[op], principal, at)],
        log := db.log + [Note(RestoreClaimedNote, op)])
  }

  // --- ClaimRestoreCleanupWithStop ------------------------------------------------------------

  /** createStopOperationTx under an unresolved restore: either maintenance of the freshly
      observed live runtime or cleanup of one closed, quarantined attempt of the old one. */
  predicate LinkedTargetAdmits(db: DB, r: Restore, t: StopTarget, seen: Option<Observation>) {
    match t.purpose
    case RunningAttemptStop => false
    case PairMaintenance =>
      && t.lineage.None?
      && seen == Some(Observation(t.session, t.gen, false))
      && (r.observed.None? || r.observed == Some(t.gen))
    case QuarantineCleanup =>
      && LineageMatches(db, t)
      && t.gen == r.tuple.expected
      && db.attempts[t.lineage.value.attempt].ended.Some? && db.attempts[t.lineage.value.attempt].quarantined
  }

  predicate ClaimCleanupAdmits(db: DB, stop: Id, t: StopTarget, principal: Id, seen: Option<Observation>) {
    && t.restore.Some? && t.restore.value in db.restores
    && var r := db.restores[t.restore.value];
    && r.tuple.pair == t.pair && r.tuple.session == t.session
    && r.resolution.RecoveryClaimed? && r.principal == Some(principal)
    && SessionIs(db.sessions, t.pair, t.session, if r.observed.Some? then r.observed.value else r.tuple.expected)
    && db.sessions[t.pair].quarantined
    && LinkedTargetAdmits(db, r, t, seen)
    // primary key and idx_stop_restore_operation
    && stop !in db.stops
    && (forall o | o in db.stops :: db.stops[o].target.restore != t.restore)
    && StopAudit(db, t)
  }

  function ClaimCleanupCommit(db: DB, stop: Id, t: StopTarget): DB
    requires t.restore.Some? && t.restore.value in db.restores
  {
    var op := t.restore.value;
    var r := db.restores[op];
    db.(restores := db.restores[op := r.(resolution := CleanupClaimed, version := r.version + 1)],
        stops := db.stops[stop := NewStop(t)],
        stopOrder := db.stopOrder + [stop],
        log := db.log + [Note(RestoreCleanupNote, op), Note(StopRequestedNote, stop)])
  }

  // --- ResolveAmbiguousRestore -------------------------------------------------------------------

  predicate HasAcceptance(db: DB, restore: Id, pair: Id, principal: Id, ref: LineageRef) {
    exists e | e in db.log ::
      && e.RiskAcceptedEvent? && e.pair == pair && e.actor == principal && e.ref == ref && e.restore == Some(restore)
      && e.stop in db.stops
      && var s := db.stops[e.stop];
      && s.target.pair == pair && s.target.session == ref.session && s.target.restore == Some(restore)
      && ((e.riskClass.ClassB? && s.resolution.TargetAbsent?) || (e.riskClass.ClassC? && s.resolution.RiskAccepted?))
  }

  predicate AdministrativeOrPhysical(db: DB, restore: Id, pair: Id, principal: Id, ref: LineageRef) {
    || PositiveEvidence(db, pair, ref.session, ref.gen, None, ref.attempt, None)
    || HasAcceptance(db, restore, pair, principal, ref)
  }

  predicate AdministrativeCoverage(db: DB, restore: Id, pair: Id, principal: Id) {
    && pair in db.sessions
    && (db.sessions[pair].quarantined ==>
          AdministrativeOrPhysical(db, restore, pair, principal, LineageRef(None, db.sessions[pair].session, db.sessions[pair].gen)))
    && forall a | a in db.attempts && OnPair(db.tasks, db.attempts, a, pair) && db.attempts[a].quarantined ::
         AdministrativeOrPhysical(db, restore, pair, principal, LineageRef(Some(a), db.attempts[a].lineage.session, db.attempts[a].lineage.gen))
  }

  predicate PhysicalCoverage(db: DB, op: Id, pair: Id, session: Id) {
    && op in db.restores
    && var r := db.restores[op];
    && (exists o | o in db.stops ::
          && db.stops[o].target.restore == Some(op) && db.stops[o].target.pair == pair && db.stops[o].target.session == session
          && var runtime := db.stops[o].target.gen;
          && pair in db.sessions && db.sessions[pair].session == session
          && db.sessions[pair].gen == (if r.stage.RestoreConfirmed? then runtime else r.tuple.expected)
          && PositiveEvidence(db, pair, session, runtime, Some(op), None, None))
    && forall a | a in db.attempts && OnPair(db.tasks, db.attempts, a, pair) && db.attempts[a].quarantined ::
         PositiveEvidence(db, pair, db.attempts[a].lineage.session, db.attempts[a].lineage.gen, None, Some(a), None)
  }

  predicate AmbiguousTuple(db: DB, op: Id, pair: Id, session: Id, gen: Id, basis: RestoreBasis, principal: Id) {
    && !basis.Http200Basis?
    && op in db.restores
    && var r := db.restores[op];
    && r.tuple.pair == pair && r.tuple.session == session && r.tuple.expected == gen
    && !UnsettledLinkedStop(db.stops, op)
    && (basis.AdministrativeBasis? && (exists o | o in db.stops :: db.stops[o].target.restore == Some(op))
        ==> AdministrativeCoverage(db, op, pair, principal))
  }

  predicate AmbiguousReplayed(db: DB, op: Id, pair: Id, session: Id, gen: Id, basis: RestoreBasis, principal: Id) {
    && AmbiguousTuple(db, op, pair, session, gen, basis, principal)
    && var r := db.restores[op];
    && r.resolution.RestoreResolved? && r.basis == Some(basis) && r.principal == Some(principal)
  }

  predicate ResolveAmbiguousAdmits(db: DB, op: Id, pair: Id, session: Id, gen: Id, basis: RestoreBasis, principal: Id) {
    && AmbiguousTuple(db, op, pair, session, gen, basis, principal)
    && var r := db.restores[op];
    && (r.resolution.RestoreOutcomeUnknown?
        || ((r.resolution.RecoveryClaimed? || r.resolution.CleanupClaimed?) && r.principal == Some(principal)))
    && (basis.PhysicalBasis? ==> PhysicalCoverage(db, op, pair, session))
  }

  function ResolveAmbiguousCommit(db: DB, op: Id, basis: RestoreBasis, principal: Id, at: Time): DB
    requires op in db.restores
  {
    var r := db.restores[op];
    var claimed := if r.resolution.RestoreOutcomeUnknown? then MarkClaimed(r, principal, at) else r;
    db.(restores := db.restores[op := MarkResolved(claimed, basis, at)],
        log := db.log + [Note(RestoreClaimedNote, op), Note(RestoreResolvedNote, op)])
  }

  // --- ClassifyInterruptedRestore ----------------------------------------------------------------

  predicate InterruptedReplayed(db: DB, op: Id) {
    && op in db.restores
    && var r := db.restores[op];
    || (r.stage.RestoreConfirmed? && r.resolution.RestoreInFlight?)
    || (r.stage.RestoreRequested? && r.resolution.RestoreOutcomeUnknown?)
  }

  predicate InterruptedAdmits(db: DB, op: Id) {
    && op in db.restores
    && var r := db.restores[op];
    && r.stage.RestoreRequested? && r.resolution.RestoreInFlight?
    && SessionIs(db.sessions, r.tuple.pair, r.tuple.session, r.tuple.expected)
  }

  function InterruptedCommit(db: DB, op: Id): DB
    requires op in db.restores && db.restores[op].tuple.pair in db.sessions
  {
    var r := db.restores[op];
    db.(restores := db.restores[op := MarkUnknown(r)],
        sessions := WithQuarantine(db.sessions, r.tuple.pair),
        attempts := QuarantineRuntime(db, r.tuple.pair, r.tuple.session, r.tuple.expected),
        log := db.log + [Note(RestoreUnknownNote, op)])
  }
}
