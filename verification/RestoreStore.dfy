/** The restore transactions as the store runs them (internal/store/restore_transactions.go). */
module RestoreStore {
  import opened Domain
  import opened Tables
  import opened StopTransactions
  import opened RestoreTransactions
  import opened ProvisioningTransactions

  method ReservePairRestore(s: Store, op: Id, tuple: RestoreTuple) returns (err: Error)
    modifies s
    ensures err.Nil? <==> ReserveRestoreAdmits(old(s.db), op, tuple)
    ensures s.db == if ReserveRestoreAdmits(old(s.db), op, tuple) then ReserveRestoreCommit(old(s.db), op, tuple) else old(s.db)
  {
    var tx := s.db;
    if tuple.pair !in tx.sessions { return NotFound; }
    if !SessionIs(tx.sessions, tuple.pair, tuple.session, tuple.expected) { return StateConflict; }
    if tx.sessions[tuple.pair].quarantined { return Quarantined; }
    if !tx.sessions[tuple.pair].status.SessionTerminated? { return StateConflict; }
    if OpenAttemptOn(tx, tuple.pair) || QuarantinedAttemptOn(tx, tuple.pair) { return Quarantined; }
    if exists d | d in tx.dispatches :: tx.dispatches[d].bound.pair == tuple.pair && tx.dispatches[d].stage.SendRequested? && !tx.dispatches[d].unknown {
      return Quarantined;
    }
    // a missing current attempt, or an open state without an open attempt
    if exists t | t in tx.tasks && tx.tasks[t].pair == tuple.pair ::
         (tx.tasks[t].current > 0 && !CurrentExists(tx, t)) || tx.tasks[t].state in {Dispatched, Running, Blocked} { return Quarantined; }
    if UnresolvedProvision(tx.provisions, tuple.pair) || UnresolvedRestore(tx.restores, tuple.pair) || PendingStopOn(tx.stops, tuple.pair) {
      return Quarantined;
    }
    tx := tx.(sessions := WithQuarantine(tx.sessions, tuple.pair));
    tx := tx.(attempts := QuarantineRuntime(tx, tuple.pair, tuple.session, tuple.expected));
    tx := tx.(log := tx.log + [Note(RestoreRiskNote, op)]);
    if exists r | r in tx.restores :: tx.restores[r].tuple.authorization == tuple.authorization { return StateConflict; }
    tx := tx.(log := tx.log + [Note(RestoreRequestedNote, op)]);
    if op in tx.restores { return StateConflict; }
    tx := tx.(restores := tx.restores[op := Restore(tuple, None, None, RestoreRequested, RestoreInFlight, None, None, None, None, 0)]);
    s.db := tx;
    return Nil;
  }

  method RecordPairRestoreUnknown(s: Store, op: Id) returns (err: Error)
    modifies s
    ensures err.Nil? <==> RestoreUnknownAdmits(old(s.db), op)
    ensures s.db == if RestoreUnknownAdmits(old(s.db), op) then RestoreUnknownCommit(old(s.db), op) else old(s.db)
  {
    var tx := s.db;
    if op !in tx.restores { return NotFound; }
    tx := tx.(log := tx.log + [Note(RestoreUnknownNote, op)]);
    var r := tx.restores[op];
    if !r.resolution.RestoreInFlight? { return StateConflict; }
    tx := tx.(restores := tx.restores[op := r.(resolution := RestoreOutcomeUnknown, version := r.version + 1)]);
    s.db := tx;
    return Nil;
  }

  method ConfirmPairRestore(s: Store, op: Id, session: Id, oldGen: Id, newGen: Id, status: SessionStatus, at: Time) returns (err: Error)
    modifies s
    ensures err.Nil? <==> ConfirmRestoreAdmits(old(s.db), op, session, oldGen)
    ensures s.db == if ConfirmRestoreAdmits(old(s.db), op, session, oldGen) then ConfirmRestoreCommit(old(s.db), op, newGen, status, at) else old(s.db)
  {
    var tx := s.db;
    if op !in tx.restores { return NotFound; }
    var r := tx.restores[op];
    if r.tuple.expected != oldGen || !r.stage.RestoreRequested? || !r.resolution.RestoreInFlight? { return StateConflict; }
    if !SessionIs(tx.sessions, r.tuple.pair, session, oldGen) { return StateConflict; }
    tx := tx.(log := tx.log + [Note(RestoreConfirmedNote, op)]);
    tx := tx.(restores := tx.restores[op := r.(stage := RestoreConfirmed, observed := Some(newGen), http200At := Some(at), version := r.version + 1)]);
    tx := tx.(sessions := tx.sessions[r.tuple.pair := Session(session, newGen, status, true)]);
    s.db := tx;
    return Nil;
  }

  method ResolveConfirmedRestore(s: Store, op: Id, session: Id, gen: Id, activity: Activity, principal: Id, at: Time) returns (err: Error)
    modifies s
    ensures err.Nil? <==>
      ResolvedReplayed(old(s.db), op, session, gen, activity, principal) || ResolveConfirmedAdmits(old(s.db), op, session, gen, activity, principal)
    ensures s.db == if ResolveConfirmedAdmits(old(s.db), op, session, gen, activity, principal)
                    then ResolveConfirmedCommit(old(s.db), op, principal, at) else old(s.db)
  {
    if !activity.ActivityIdle? && !activity.ActivityWaitingInput? { return Invalid; }
    var tx := s.db;
    if op !in tx.restores { return NotFound; }
    var r := tx.restores[op];
    if r.tuple.session != session || r.observed != Some(gen) || !r.stage.RestoreConfirmed? { return StateConflict; }
    var alreadyResolved := r.resolution.RestoreResolved? && r.basis == Some(Http200Basis) && r.principal == Some(principal);
    if !alreadyResolved && !r.resolution.RestoreInFlight? && !r.resolution.RecoveryClaimed? { return StateConflict; }
    if !alreadyResolved && r.resolution.RecoveryClaimed? && r.principal != Some(principal) { return StateConflict; }
    if !SessionIs(tx.sessions, r.tuple.pair, session, gen) { return StateConflict; }
    if UnsettledLinkedStop(tx.stops, op) { return StateConflict; }
    if alreadyResolved { return Nil; }
    if r.resolution.RestoreInFlight? {
      tx := tx.(log := tx.log + [Note(RestoreClaimedNote, op)]);
      r := r.(resolution := RecoveryClaimed, principal := Some(principal), claimedAt := Some(at), version := r.version + 1);
      tx := tx.(restores := tx.restores[op := r]);
    }
    tx := tx.(log := tx.log + [Note(RestoreResolvedNote, op)]);
    tx := tx.(restores := tx.restores[op :=
      r.(resolution := RestoreResolved, basis := Some(Http200Basis), resolvedAt := Some(at), version := r.version + 1)]);
    s.db := tx;
    return Nil;
  }

  method ClaimRestoreRecovery(s: Store, op: Id, pair: Id, session: Id, gen: Id, principal: Id, at: Time) returns (err: Error)
    modifies s
    ensures err.Nil? <==> ClaimRecoveryAdmits(old(s.db), op, pair, session, gen)
    ensures s.db == if ClaimRecoveryAdmits(old(s.db), op, pair, session, gen) then ClaimRecoveryCommit(old(s.db), op, principal, at) else old(s.db)
  {
    var tx := s.db;
    if op !in tx.restores { return NotFound; }
    var r := tx.restores[op];
    var allowed := r.resolution.RestoreOutcomeUnknown? || (r.resolution.RestoreInFlight? && r.stage.RestoreConfirmed?);
    var genMatches := gen == r.tuple.expected || r.observed == Some(gen);
    if r.tuple.pair != pair || r.tuple.session != session || !allowed || !genMatches { return StateConflict; }
    tx := tx.(log := tx.log + [Note(RestoreClaimedNote, op)]);
    tx := tx.(restores := tx.restores[op :=
      r.(resolution := RecoveryClaimed, principal := Some(principal), claimedAt := Some(at), version := r.version + 1)]);
    s.db := tx;
    return Nil;
  }

  method ClaimRestoreCleanupWithStop(s: Store, stop: Id, t: StopTarget, principal: Id, seen: Option<Observation>) returns (err: Error)
    modifies s
    ensures err.Nil? <==> ClaimCleanupAdmits(old(s.db), stop, t, principal, seen)
    ensures s.db == if ClaimCleanupAdmits(old(s.db), stop, t, principal, seen) then ClaimCleanupCommit(old(s.db), stop, t) else old(s.db)
  {
    if t.restore.None? { return Invalid; }
    if t.purpose.PairMaintenance? && seen != Some(Observation(t.session, t.gen, false)) { return StateConflict; }
    var tx := s.db;
    var op := t.restore.value;
    if op !in tx.restores { return NotFound; }
    var r := tx.restores[op];
    var validObserved := t.purpose.PairMaintenance? && seen.Some? && seen.value.session == r.tuple.session && seen.value.gen == t.gen;
    if r.tuple.pair != t.pair || r.tuple.session != t.session || !r.resolution.RecoveryClaimed? || r.principal != Some(principal)
       || (t.gen != r.tuple.expected && r.observed != Some(t.gen) && !validObserved) { return StateConflict; }
    if !SessionIs(tx.sessions, t.pair, t.session, if r.observed.Some? then r.observed.value else r.tuple.expected)
       || !tx.sessions[t.pair].quarantined { return StateConflict; }
    tx := tx.(log := tx.log + [Note(RestoreCleanupNote, op)]);
    tx := tx.(restores := tx.restores[op := r.(resolution := CleanupClaimed, version := r.version + 1)]);
    // createStopOperationTx under the claimed restore
    if !LinkedTargetAdmits(tx, r, t, seen) { return Quarantined; }
    if stop in tx.stops || exists o | o in tx.stops :: tx.stops[o].target.restore == t.restore { return StateConflict; }
    tx := tx.(stops := tx.stops[stop := NewStop(t)], stopOrder := tx.stopOrder + [stop]);
    if !StopAudit(tx, t) { return LineageMismatch; }
    tx := tx.(log := tx.log + [Note(StopRequestedNote, stop)]);
    assert tx.log == s.db.log + [Note(RestoreCleanupNote, op), Note(StopRequestedNote, stop)];
    s.db := tx;
    return Nil;
  }

  /** The quarantined attempts of a Pair. */
  function QuarantinedOn(db: DB, pair: Id): set<Id> {
    set a | a in db.attempts && OnPair(db.tasks, db.attempts, a, pair) && db.attempts[a].quarantined
  }

  /** Class A: evidence for the linked runtime and for every quarantined attempt in turn. */
  method CheckPhysicalCoverage(db: DB, op: Id, pair: Id, session: Id) returns (ok: bool)
    requires op in db.restores
    requires forall o, k | o in db.stops && k in db.stops && db.stops[o].target.restore == Some(op) && db.stops[k].target.restore == Some(op) :: o == k
    ensures ok <==> PhysicalCoverage(db, op, pair, session)
  {
    var r := db.restores[op];
    if o :| o in db.stops && db.stops[o].target.restore == Some(op) && db.stops[o].target.pair == pair && db.stops[o].target.session == session {
      var runtime := db.stops[o].target.gen;
      if pair !in db.sessions || db.sessions[pair].session != session { return false; }
      if r.stage.RestoreConfirmed? && db.sessions[pair].gen != runtime { return false; }
      if r.stage.RestoreRequested? && db.sessions[pair].gen != r.tuple.expected { return false; }
      if !PositiveEvidence(db, pair, session, runtime, Some(op), None, None) { return false; }
    } else {
      return false;
    }
    var lineages := QuarantinedOn(db, pair);
    while lineages != {}
      invariant lineages <= QuarantinedOn(db, pair)
      invariant forall a | a in QuarantinedOn(db, pair) - lineages ::
        PositiveEvidence(db, pair, db.attempts[a].lineage.session, db.attempts[a].lineage.gen, None, Some(a), None)
      decreases lineages
    {
      var a :| a in lineages;
      if !PositiveEvidence(db, pair, db.attempts[a].lineage.session, db.attempts[a].lineage.gen, None, Some(a), None) {
        assert a in QuarantinedOn(db, pair);
        return false;
      }
      lineages := lineages - {a};
    }
    return true;
  }

  method ResolveAmbiguousRestore(s: Store, op: Id, pair: Id, session: Id, gen: Id, basis: RestoreBasis, principal: Id, at: Time) returns (err: Error)
    requires forall o, k | o in s.db.stops && k in s.db.stops && s.db.stops[o].target.restore == Some(op) && s.db.stops[k].target.restore == Some(op) :: o == k
    modifies s
    ensures err.Nil? <==>
      AmbiguousReplayed(old(s.db), op, pair, session, gen, basis, principal) || ResolveAmbiguousAdmits(old(s.db), op, pair, session, gen, basis, principal)
    ensures s.db == if ResolveAmbiguousAdmits(old(s.db), op, pair, session, gen, basis, principal)
                    then ResolveAmbiguousCommit(old(s.db), op, basis, principal, at) else old(s.db)
  {
    if basis.Http200Basis? { return Invalid; }
    var tx := s.db;
    if op !in tx.restores { return NotFound; }
    var r := tx.restores[op];
    if r.tuple.pair != pair || r.tuple.session != session || r.tuple.expected != gen { return LineageMismatch; }
    if UnsettledLinkedStop(tx.stops, op) { return StateConflict; }
    if basis.AdministrativeBasis? && exists o | o in tx.stops :: tx.stops[o].target.restore == Some(op) {
      if !AdministrativeCoverage(tx, op, pair, principal) { return StateConflict; }
    }
    if r.resolution.RestoreResolved? && r.basis == Some(basis) && r.principal == Some(principal) { return Nil; }
    if !r.resolution.RestoreOutcomeUnknown? && !r.resolution.RecoveryClaimed? && !r.resolution.CleanupClaimed? { return StateConflict; }
    if basis.PhysicalBasis? {
      var covered := CheckPhysicalCoverage(tx, op, pair, session);
      if !covered { return StateConflict; }
    }
    tx := tx.(log := tx.log + [Note(RestoreClaimedNote, op)]);
    if r.resolution.RestoreOutcomeUnknown? {
      r := r.(resolution := RecoveryClaimed, principal := Some(principal), claimedAt := Some(at), version := r.version + 1);
      tx := tx.(restores := tx.restores[op := r]);
    } else if r.principal != Some(principal) {
      return StateConflict;
    }
    tx := tx.(log := tx.log + [Note(RestoreResolvedNote, op)]);
    tx := tx.(restores := tx.restores[op :=
      r.(resolution := RestoreResolved, basis := Some(basis), resolvedAt := Some(at), version := r.version + 1)]);
    assert tx.log == s.db.log + [Note(RestoreClaimedNote, op), Note(RestoreResolvedNote, op)];
    s.db := tx;
    return Nil;
  }

  method ClassifyInterruptedRestore(s: Store, op: Id) returns (err: Error)
    modifies s
    ensures err.Nil? <==> InterruptedReplayed(old(s.db), op) || InterruptedAdmits(old(s.db), op)
    ensures s.db == if InterruptedAdmits(old(s.db), op) then InterruptedCommit(old(s.db), op) else old(s.db)
  {
    var tx := s.db;
    if op !in tx.restores { return NotFound; }
    var r := tx.restores[op];
    if r.stage.RestoreConfirmed? && r.resolution.RestoreInFlight? { return Nil; }
    if r.stage.RestoreRequested? && r.resolution.RestoreOutcomeUnknown? { return Nil; }
    if !r.stage.RestoreRequested? || !r.resolution.RestoreInFlight? { return StateConflict; }
    tx := tx.(restores := tx.restores[op := r.(resolution := RestoreOutcomeUnknown, version := r.version + 1)]);
    if !SessionIs(tx.sessions, r.tuple.pair, r.tuple.session, r.tuple.expected) { return StateConflict; }
    tx := tx.(sessions := WithQuarantine(tx.sessions, r.tuple.pair));
    tx := tx.(attempts := QuarantineRuntime(tx, r.tuple.pair, r.tuple.session, r.tuple.expected));
    tx := tx.(log := tx.log + [Note(RestoreUnknownNote, op)]);
    s.db := tx;
    return Nil;
  }
}
