/** Every transaction of RestoreTransactions keeps the invariants. */
module RestoreProofs {
  import opened Domain
  import opened Tables
  import opened StopTransactions
  import opened RestoreTransactions
  import opened Invariants
  import opened Shapes

  // --- one restore row, nothing else ------------------------------------------------

  /** Row op moves forward and keeps naming the runtime its session row shows. */
  predicate RestoreOnly(db: DB, e: DB, op: Id, row: Restore) {
    && e == db.(restores := e.restores, log := e.log) && db.log <= e.log
    && RestoreUpdate(db.stops, db.restores, e.restores, op, row)
    && VersionFits(row) && RestoreChecks(row)
    && (!row.resolution.RestoreResolved? ==> RuntimeGen(row) == RuntimeGen(db.restores[op]))
  }

  lemma RestoreOnlyRows(db: DB, e: DB, op: Id, row: Restore)
    requires RestoreInv(db.restores, db.sessions) && RestoreOnly(db, e, op, row)
    ensures RestoreInv(e.restores, e.sessions)
  {
    forall r, q, pair | Unresolved(e.restores, r, pair) && Unresolved(e.restores, q, pair) ensures r == q {
      assert Unresolved(db.restores, r, pair) && Unresolved(db.restores, q, pair);
    }
  }

  lemma RestoreOnlyStops(db: DB, e: DB, op: Id, row: Restore)
    requires StopInv(db) && RestoreOnly(db, e, op, row)
    ensures StopInv(e)
  {
    RestoreUpdated(db.stops, db.restores, e.restores, op, row);
    LogGrows(db.stops, db.log, e.log);
  }

  lemma RestoreOnlyKeeps(db: DB, e: DB, op: Id, row: Restore)
    requires Inv(db) && RestoreOnly(db, e, op, row)
    ensures Inv(e)
  {
    RestoreOnlyRows(db, e, op, row);
    RestoreOnlyStops(db, e, op, row);
  }

  lemma UnknownLocal(db: DB, op: Id)
    requires RestoreInv(db.restores, db.sessions) && RestoreUnknownAdmits(db, op)
    ensures RestoreOnly(db, RestoreUnknownCommit(db, op), op, MarkUnknown(db.restores[op]))
  {
  }

  lemma ClaimLocal(db: DB, op: Id, pair: Id, session: Id, gen: Id, principal: Id, at: Time)
    requires RestoreInv(db.restores, db.sessions) && ClaimRecoveryAdmits(db, op, pair, session, gen)
    ensures RestoreOnly(db, ClaimRecoveryCommit(db, op, principal, at), op, MarkClaimed(db.restores[op], principal, at))
  {
  }

  lemma ResolveConfirmedLocal(db: DB, op: Id, session: Id, gen: Id, activity: Activity, principal: Id, at: Time)
    requires RestoreInv(db.restores, db.sessions) && ResolveConfirmedAdmits(db, op, session, gen, activity, principal)
    ensures var e := ResolveConfirmedCommit(db, op, principal, at); RestoreOnly(db, e, op, e.restores[op])
  {
  }

  lemma ResolveAmbiguousLocal(db: DB, op: Id, pair: Id, session: Id, gen: Id, basis: RestoreBasis, principal: Id, at: Time)
    requires RestoreInv(db.restores, db.sessions) && ResolveAmbiguousAdmits(db, op, pair, session, gen, basis, principal)
    ensures var e := ResolveAmbiguousCommit(db, op, basis, principal, at); RestoreOnly(db, e, op, e.restores[op])
  {
  }

  lemma UnknownKeeps(db: DB, op: Id)
    requires Inv(db) && RestoreUnknownAdmits(db, op)
    ensures Inv(RestoreUnknownCommit(db, op))
  {
    UnknownLocal(db, op);
    RestoreOnlyKeeps(db, RestoreUnknownCommit(db, op), op, MarkUnknown(db.restores[op]));
  }

  lemma ClaimKeeps(db: DB, op: Id, pair: Id, session: Id, gen: Id, principal: Id, at: Time)
    requires Inv(db) && ClaimRecoveryAdmits(db, op, pair, session, gen)
    ensures Inv(ClaimRecoveryCommit(db, op, principal, at))
  {
    ClaimLocal(db, op, pair, session, gen, principal, at);
    RestoreOnlyKeeps(db, ClaimRecoveryCommit(db, op, principal, at), op, MarkClaimed(db.restores[op], principal, at));
  }

  lemma ResolveConfirmedKeeps(db: DB, op: Id, session: Id, gen: Id, activity: Activity, principal: Id, at: Time)
    requires Inv(db) && ResolveConfirmedAdmits(db, op, session, gen, activity, principal)
    ensures Inv(ResolveConfirmedCommit(db, op, principal, at))
  {
    ResolveConfirmedLocal(db, op, session, gen, activity, principal, at);
    var e := ResolveConfirmedCommit(db, op, principal, at);
    RestoreOnlyKeeps(db, e, op, e.restores[op]);
  }

  lemma ResolveAmbiguousKeeps(db: DB, op: Id, pair: Id, session: Id, gen: Id, basis: RestoreBasis, principal: Id, at: Time)
    requires Inv(db) && ResolveAmbiguousAdmits(db, op, pair, session, gen, basis, principal)
    ensures Inv(ResolveAmbiguousCommit(db, op, basis, principal, at))
  {
    ResolveAmbiguousLocal(db, op, pair, session, gen, basis, principal, at);
    var e := ResolveAmbiguousCommit(db, op, basis, principal, at);
    RestoreOnlyKeeps(db, e, op, e.restores[op]);
  }

  // --- quarantining one runtime of a Pair --------------------------------------------

  /** The session row and attempts of Pair p gain quarantine; nothing else moves. */
  predicate RuntimeQuarantined(db: DB, e: DB, p: Id) {
    && p in db.sessions
    && e == db.(sessions := WithQuarantine(db.sessions, p), attempts := e.attempts)
    && e.attempts.Keys == db.attempts.Keys
    && forall a | a in db.attempts :: QuarantineAdded(db, a, e.attempts[a], p)
  }

  predicate QuarantineAdded(db: DB, a: Id, row: Attempt, p: Id)
    requires a in db.attempts
  {
    row == db.attempts[a] || (row == db.attempts[a].(quarantined := true) && OnPair(db.tasks, db.attempts, a, p))
  }

  lemma QuarantineRuntimeIs(db: DB, pair: Id, session: Id, gen: Id)
    requires pair in db.sessions
    ensures RuntimeQuarantined(db, db.(sessions := WithQuarantine(db.sessions, pair), attempts := QuarantineRuntime(db, pair, session, gen)), pair)
  {
  }

  lemma RuntimeNumbers(db: DB, e: DB, p: Id)
    requires RuntimeQuarantined(db, e, p)
    requires NumbersComplete(db.tasks, db.attempts) && NumbersUnique(db.attempts)
    ensures NumbersComplete(e.tasks, e.attempts) && NumbersUnique(e.attempts)
  {
    forall a | a in db.attempts ensures QuarantineAdded(db, a, e.attempts[a], p) {}
    forall k, n: nat | k in e.tasks && 1 <= n <= e.tasks[k].current
      ensures Numbered(e.attempts, k, n)
    {
      assert Numbered(db.attempts, k, n);
      var x :| HasNumber(db.attempts, x, k, n);
      assert HasNumber(e.attempts, x, k, n);
    }
  }

  lemma RuntimeOpen(db: DB, e: DB, p: Id)
    requires RuntimeQuarantined(db, e, p)
    requires AttemptRefs(db.tasks, db.contracts, db.attempts) && CurrentIsOpen(db.tasks, db.attempts)
    ensures AttemptRefs(e.tasks, e.contracts, e.attempts) && CurrentIsOpen(e.tasks, e.attempts)
  {
    forall k | k in e.attempts && IsCurrent(e.tasks, e.attempts, k) && OpenState(e.tasks[e.attempts[k].lineage.task].state)
      ensures e.attempts[k].ended.None?
    {
      assert IsCurrent(db.tasks, db.attempts, k);
    }
  }

  lemma RuntimeLineage(db: DB, e: DB, p: Id)
    requires RuntimeQuarantined(db, e, p) && LineageInv(db)
    ensures LineageInv(e)
  {
    RuntimeNumbers(db, e, p);
    RuntimeOpen(db, e, p);
    RuntimeRevisions(db, e, p);
  }

  lemma RuntimeRevisions(db: DB, e: DB, p: Id)
    requires RuntimeQuarantined(db, e, p) && RevisionsMonotone(db.contracts, db.attempts)
    ensures RevisionsMonotone(e.contracts, e.attempts)
  {
  }

  lemma RuntimeSessions(db: DB, e: DB, p: Id)
    requires RuntimeQuarantined(db, e, p)
    requires SessionInv(db.tasks, db.attempts, db.sessions) && ProvisionInv(db.provisions, db.sessions) && RestoreInv(db.restores, db.sessions)
    ensures SessionInv(e.tasks, e.attempts, e.sessions) && ProvisionInv(e.provisions, e.sessions) && RestoreInv(e.restores, e.sessions)
  {
    forall a | a in db.attempts ensures QuarantineAdded(db, a, e.attempts[a], p) {}
  }

  lemma RuntimeExcludesOpen(db: DB, e: DB, p: Id)
    requires RuntimeQuarantined(db, e, p) && RestoreExcludesOpen(db.tasks, db.attempts, db.restores)
    ensures RestoreExcludesOpen(e.tasks, e.attempts, e.restores)
  {
    forall r, a | r in e.restores && a in e.attempts && !e.restores[r].resolution.RestoreResolved? && OnPair(e.tasks, e.attempts, a, e.restores[r].tuple.pair)
      ensures e.attempts[a].ended.Some?
    {
      assert QuarantineAdded(db, a, e.attempts[a], p) && OnPair(db.tasks, db.attempts, a, db.restores[r].tuple.pair);
    }
  }

  lemma RuntimeDispatches(db: DB, e: DB, p: Id)
    requires RuntimeQuarantined(db, e, p) && DispatchInv(db)
    ensures DispatchInv(e)
  {
    forall a | a in db.attempts ensures QuarantineAdded(db, a, e.attempts[a], p) {}
    StagesComplete(db.attempts, e.attempts, db.dispatches, e.dispatches);
  }

  lemma RuntimeStops(db: DB, e: DB, p: Id)
    requires RuntimeQuarantined(db, e, p) && StopInv(db)
    ensures StopInv(e)
  {
    forall o | o in db.stops ensures StopRefs(e.tasks, e.attempts, e.sessions, db.stops[o].target) {
      assert StopRefs(db.tasks, db.attempts, db.sessions, db.stops[o].target);
    }
    LogGrows(db.stops, db.log, e.log);
  }

  lemma RuntimeKeeps(db: DB, e: DB, p: Id)
    requires Inv(db) && RuntimeQuarantined(db, e, p)
    ensures Inv(e)
  {
    RuntimeLineage(db, e, p);
    RuntimeSessions(db, e, p);
    RuntimeExcludesOpen(db, e, p);
    RuntimeDispatches(db, e, p);
    RuntimeStops(db, e, p);
  }

  lemma RuntimeSaga(db: DB, e: DB, p: Id)
    requires RuntimeQuarantined(db, e, p) && SagaCore(db)
    ensures SagaCore(e)
  {
    forall d | d in e.dispatches && IsCurrent(e.tasks, e.attempts, e.dispatches[d].bound.attempt)
      ensures IsCurrent(db.tasks, db.attempts, db.dispatches[d].bound.attempt)
    {
      assert QuarantineAdded(db, db.dispatches[d].bound.attempt, e.attempts[db.dispatches[d].bound.attempt], p);
    }
    forall o | o in e.stops && e.stops[o].target.purpose.RunningAttemptStop? && e.stops[o].resolution.InFlight?
      ensures LiveStopHolds(e.tasks, e.attempts, e.stops[o].target)
    {
      assert LiveStopHolds(db.tasks, db.attempts, db.stops[o].target);
    }
  }

  /** A step that leaves tasks, attempts, stages and live stops alone keeps the saga part. */
  lemma UntouchedSaga(db: DB, e: DB)
    requires SagaCore(db) && e.tasks == db.tasks && e.attempts == db.attempts && e.dispatches == db.dispatches
    requires forall o | o in e.stops && e.stops[o].target.purpose.RunningAttemptStop? :: o in db.stops && e.stops[o] == db.stops[o]
    ensures SagaCore(e)
  {
  }

  // --- ReservePairRestore --------------------------------------------------------------

  function Quarantining(db: DB, pair: Id, session: Id, gen: Id): DB
    requires pair in db.sessions
  {
    db.(sessions := WithQuarantine(db.sessions, pair), attempts := QuarantineRuntime(db, pair, session, gen))
  }

  /** A fresh row on a quarantined Pair with nothing open. */
  predicate RestoreInsert(db: DB, e: DB, op: Id, tuple: RestoreTuple) {
    && op !in db.restores && db.log <= e.log
    && e == db.(restores := db.restores[op := Restore(tuple, None, None, RestoreRequested, RestoreInFlight, None, None, None, None, 0)], log := e.log)
    && SessionIs(db.sessions, tuple.pair, tuple.session, tuple.expected) && db.sessions[tuple.pair].quarantined
    && !OpenAttemptOn(db, tuple.pair) && !UnresolvedRestore(db.restores, tuple.pair) && !PendingStopOn(db.stops, tuple.pair)
    && forall r | r in db.restores :: db.restores[r].tuple.authorization != tuple.authorization
  }

  lemma InsertRestores(db: DB, e: DB, op: Id, tuple: RestoreTuple)
    requires RestoreInv(db.restores, db.sessions) && RestoreInsert(db, e, op, tuple)
    ensures RestoreInv(e.restores, e.sessions)
  {
    forall r, q, pair | Unresolved(e.restores, r, pair) && Unresolved(e.restores, q, pair) ensures r == q {
      assert r != op ==> Unresolved(db.restores, r, pair);
      assert q != op ==> Unresolved(db.restores, q, pair);
    }
  }

  lemma InsertExcludesOpen(db: DB, e: DB, op: Id, tuple: RestoreTuple)
    requires RestoreExcludesOpen(db.tasks, db.attempts, db.restores) && RestoreInsert(db, e, op, tuple)
    ensures RestoreExcludesOpen(e.tasks, e.attempts, e.restores)
  {
  }

  lemma InsertStops(db: DB, e: DB, op: Id, tuple: RestoreTuple)
    requires StopInv(db) && RestoreInsert(db, e, op, tuple)
    ensures StopInv(e)
  {
    InsertOwners(db, e, op, tuple);
    LogGrows(db.stops, db.log, e.log);
  }

  lemma InsertOwners(db: DB, e: DB, op: Id, tuple: RestoreTuple)
    requires StopOwners(db.stops, db.restores) && RestoreInsert(db, e, op, tuple)
    ensures StopOwners(e.stops, e.restores)
  {
    forall o | o in db.stops && PendingResolution(db.stops[o].resolution) ensures OwnerAdmits(e.restores, db.stops[o].target) {
      assert OwnerAdmits(db.restores, db.stops[o].target) && db.stops[o].target.pair != tuple.pair;
      forall r, p | Unresolved(e.restores, r, p) && p != tuple.pair ensures Unresolved(db.restores, r, p) {}
    }
  }

  lemma InsertKeeps(db: DB, e: DB, op: Id, tuple: RestoreTuple)
    requires Inv(db) && RestoreInsert(db, e, op, tuple)
    ensures Inv(e)
  {
    InsertRestores(db, e, op, tuple);
    InsertExcludesOpen(db, e, op, tuple);
    InsertStops(db, e, op, tuple);
  }

  lemma ReserveLocal(db: DB, op: Id, tuple: RestoreTuple)
    requires ReserveRestoreAdmits(db, op, tuple)
    ensures var mid := Quarantining(db, tuple.pair, tuple.session, tuple.expected);
      RuntimeQuarantined(db, mid, tuple.pair) && RestoreInsert(mid, ReserveRestoreCommit(db, op, tuple), op, tuple)
  {
    QuarantineRuntimeIs(db, tuple.pair, tuple.session, tuple.expected);
    var mid := Quarantining(db, tuple.pair, tuple.session, tuple.expected);
    forall a | a in mid.attempts && OnPair(mid.tasks, mid.attempts, a, tuple.pair) ensures mid.attempts[a].ended.Some? {
      assert QuarantineAdded(db, a, mid.attempts[a], tuple.pair) && OnPair(db.tasks, db.attempts, a, tuple.pair);
    }
  }

  lemma ReserveKeeps(db: DB, op: Id, tuple: RestoreTuple)
    requires Inv(db) && ReserveRestoreAdmits(db, op, tuple)
    ensures Inv(ReserveRestoreCommit(db, op, tuple))
  {
    var mid := Quarantining(db, tuple.pair, tuple.session, tuple.expected);
    ReserveLocal(db, op, tuple);
    RuntimeKeeps(db, mid, tuple.pair);
    InsertKeeps(mid, ReserveRestoreCommit(db, op, tuple), op, tuple);
  }

  lemma ReserveSaga(db: DB, op: Id, tuple: RestoreTuple)
    requires SagaCore(db) && ReserveRestoreAdmits(db, op, tuple)
    ensures SagaCore(ReserveRestoreCommit(db, op, tuple))
  {
    var mid := Quarantining(db, tuple.pair, tuple.session, tuple.expected);
    ReserveLocal(db, op, tuple);
    RuntimeSaga(db, mid, tuple.pair);
    UntouchedSaga(mid, ReserveRestoreCommit(db, op, tuple));
  }

  // --- ClassifyInterruptedRestore --------------------------------------------------------

  lemma InterruptedLocal(db: DB, op: Id)
    requires RestoreInv(db.restores, db.sessions) && InterruptedAdmits(db, op)
    ensures var t := db.restores[op].tuple;
      var mid := Quarantining(db, t.pair, t.session, t.expected);
      RuntimeQuarantined(db, mid, t.pair) && RestoreOnly(mid, InterruptedCommit(db, op), op, MarkUnknown(db.restores[op]))
  {
    var t := db.restores[op].tuple;
    QuarantineRuntimeIs(db, t.pair, t.session, t.expected);
  }

  lemma InterruptedKeeps(db: DB, op: Id)
    requires Inv(db) && InterruptedAdmits(db, op)
    ensures Inv(InterruptedCommit(db, op))
  {
    var t := db.restores[op].tuple;
    var mid := Quarantining(db, t.pair, t.session, t.expected);
    InterruptedLocal(db, op);
    RuntimeKeeps(db, mid, t.pair);
    RestoreOnlyKeeps(mid, InterruptedCommit(db, op), op, MarkUnknown(db.restores[op]));
  }

  lemma InterruptedSaga(db: DB, op: Id)
    requires RestoreInv(db.restores, db.sessions) && SagaCore(db) && InterruptedAdmits(db, op)
    ensures SagaCore(InterruptedCommit(db, op))
  {
    var t := db.restores[op].tuple;
    var mid := Quarantining(db, t.pair, t.session, t.expected);
    InterruptedLocal(db, op);
    RuntimeSaga(db, mid, t.pair);
    UntouchedSaga(mid, InterruptedCommit(db, op));
  }

  // --- ConfirmPairRestore ------------------------------------------------------------------

  predicate ConfirmStep(db: DB, e: DB, op: Id, session: Id, oldGen: Id, newGen: Id, status: SessionStatus, at: Time) {
    ConfirmRestoreAdmits(db, op, session, oldGen) && e == ConfirmRestoreCommit(db, op, newGen, status, at)
  }

  /** No open attempt carries the generation that is about to be replaced. */
  lemma ConfirmSessions(db: DB, e: DB, op: Id, session: Id, oldGen: Id, newGen: Id, status: SessionStatus, at: Time)
    requires ConfirmStep(db, e, op, session, oldGen, newGen, status, at)
    requires SessionInv(db.tasks, db.attempts, db.sessions) && RestoreExcludesOpen(db.tasks, db.attempts, db.restores)
    requires ProvisionInv(db.provisions, db.sessions)
    ensures SessionInv(e.tasks, e.attempts, e.sessions) && ProvisionInv(e.provisions, e.sessions)
  {
    var p := db.restores[op].tuple.pair;
    forall a | a in db.attempts && OnPair(db.tasks, db.attempts, a, p) ensures db.attempts[a].ended.Some? {}
  }

  lemma ConfirmRestores(db: DB, e: DB, op: Id, session: Id, oldGen: Id, newGen: Id, status: SessionStatus, at: Time)
    requires ConfirmStep(db, e, op, session, oldGen, newGen, status, at)
    requires RestoreInv(db.restores, db.sessions)
    ensures RestoreInv(e.restores, e.sessions)
  {
    assert Unresolved(db.restores, op, db.restores[op].tuple.pair);
    forall r | r in e.restores && r != op && !e.restores[r].resolution.RestoreResolved?
      ensures SessionIs(e.sessions, e.restores[r].tuple.pair, e.restores[r].tuple.session, RuntimeGen(e.restores[r]))
              && e.sessions[e.restores[r].tuple.pair].quarantined
    {
      assert Unresolved(db.restores, r, db.restores[r].tuple.pair);
    }
    forall r, q, pair | Unresolved(e.restores, r, pair) && Unresolved(e.restores, q, pair) ensures r == q {
      assert Unresolved(db.restores, r, pair) && Unresolved(db.restores, q, pair);
    }
  }

  lemma ConfirmExcludesOpen(db: DB, e: DB, op: Id, session: Id, oldGen: Id, newGen: Id, status: SessionStatus, at: Time)
    requires ConfirmStep(db, e, op, session, oldGen, newGen, status, at)
    requires RestoreExcludesOpen(db.tasks, db.attempts, db.restores)
    ensures RestoreExcludesOpen(e.tasks, e.attempts, e.restores)
  {
  }

  lemma ConfirmStops(db: DB, e: DB, op: Id, session: Id, oldGen: Id, newGen: Id, status: SessionStatus, at: Time)
    requires ConfirmStep(db, e, op, session, oldGen, newGen, status, at) && StopInv(db)
    ensures StopInv(e)
  {
    forall o | o in db.stops ensures StopRefs(e.tasks, e.attempts, e.sessions, db.stops[o].target) {
      assert StopRefs(db.tasks, db.attempts, db.sessions, db.stops[o].target);
    }
    RestoreUpdated(db.stops, db.restores, e.restores, op, e.restores[op]);
    LogGrows(db.stops, db.log, e.log);
  }

  lemma ConfirmKeeps(db: DB, e: DB, op: Id, session: Id, oldGen: Id, newGen: Id, status: SessionStatus, at: Time)
    requires Inv(db) && ConfirmStep(db, e, op, session, oldGen, newGen, status, at)
    ensures Inv(e)
  {
    ConfirmSessions(db, e, op, session, oldGen, newGen, status, at);
    ConfirmRestores(db, e, op, session, oldGen, newGen, status, at);
    ConfirmExcludesOpen(db, e, op, session, oldGen, newGen, status, at);
    ConfirmStops(db, e, op, session, oldGen, newGen, status, at);
  }

  // --- ClaimRestoreCleanupWithStop -------------------------------------------------------------

  predicate CleanupStep(db: DB, e: DB, stop: Id, t: StopTarget, principal: Id, seen: Option<Observation>) {
    ClaimCleanupAdmits(db, stop, t, principal, seen) && e == ClaimCleanupCommit(db, stop, t)
  }

  function Claimed(db: DB, op: Id): DB
    requires op in db.restores
  {
    db.(restores := db.restores[op := db.restores[op].(resolution := CleanupClaimed, version := db.restores[op].version + 1)])
  }

  lemma CleanupLocal(db: DB, e: DB, stop: Id, t: StopTarget, principal: Id, seen: Option<Observation>) returns (op: Id)
    requires RestoreInv(db.restores, db.sessions)
    requires CleanupStep(db, e, stop, t, principal, seen)
    ensures t.restore == Some(op) && op in db.restores && RestoreOnly(db, Claimed(db, op), op, Claimed(db, op).restores[op])
    ensures e.restores == Claimed(db, op).restores && e.sessions == db.sessions
  {
    op := t.restore.value;
  }

  /** The claiming restore is the only unresolved one, and it owned no stop until now. */
  lemma CleanupIsAlone(db: DB, e: DB, stop: Id, t: StopTarget, principal: Id, seen: Option<Observation>)
    requires RestoreInv(db.restores, db.sessions) && StopOwners(db.stops, db.restores)
    requires CleanupStep(db, e, stop, t, principal, seen)
    ensures StopInsert(db.stops, e.stops, stop, t)
  {
    var op := t.restore.value;
    assert Unresolved(db.restores, op, t.pair);
    assert forall o | o in db.stops && PendingResolution(db.stops[o].resolution) :: OwnerAdmits(db.restores, db.stops[o].target);
  }

  lemma CleanupOwners(db: DB, e: DB, stop: Id, t: StopTarget, principal: Id, seen: Option<Observation>)
    requires CleanupStep(db, e, stop, t, principal, seen)
    requires StopOwners(db.stops, Claimed(db, t.restore.value).restores)
    ensures StopOwners(e.stops, e.restores)
  {
  }

  lemma CleanupStops(db: DB, e: DB, stop: Id, t: StopTarget, principal: Id, seen: Option<Observation>)
    requires RestoreInv(db.restores, db.sessions) && StopInv(db)
    requires CleanupStep(db, e, stop, t, principal, seen)
    ensures StopInv(e)
  {
    var op := CleanupLocal(db, e, stop, t, principal, seen);
    RestoreUpdated(db.stops, db.restores, e.restores, t.restore.value, e.restores[t.restore.value]);
    CleanupIsAlone(db, e, stop, t, principal, seen);
    CleanupOwners(db, e, stop, t, principal, seen);
    forall o | o in db.stops ensures StopRefs(e.tasks, e.attempts, e.sessions, db.stops[o].target) {
      assert StopRefs(db.tasks, db.attempts, db.sessions, db.stops[o].target);
    }
    InsertKeepsStops(db, e, stop, t);
  }

  lemma CleanupRestores(db: DB, e: DB, stop: Id, t: StopTarget, principal: Id, seen: Option<Observation>)
    requires RestoreInv(db.restores, db.sessions)
    requires CleanupStep(db, e, stop, t, principal, seen)
    ensures RestoreInv(e.restores, e.sessions)
  {
    hide CleanupStep, RestoreInv, RestoreOnly;
    var op := CleanupLocal(db, e, stop, t, principal, seen);
    RestoreOnlyRows(db, Claimed(db, op), op, Claimed(db, op).restores[op]);
  }

  lemma CleanupExcludesOpen(db: DB, e: DB, stop: Id, t: StopTarget, principal: Id, seen: Option<Observation>)
    requires RestoreExcludesOpen(db.tasks, db.attempts, db.restores)
    requires CleanupStep(db, e, stop, t, principal, seen)
    ensures RestoreExcludesOpen(e.tasks, e.attempts, e.restores)
  {
  }

  lemma CleanupKeeps(db: DB, e: DB, stop: Id, t: StopTarget, principal: Id, seen: Option<Observation>)
    requires Inv(db) && CleanupStep(db, e, stop, t, principal, seen)
    ensures Inv(e)
  {
    CleanupStops(db, e, stop, t, principal, seen);
    CleanupRestores(db, e, stop, t, principal, seen);
    CleanupExcludesOpen(db, e, stop, t, principal, seen);
  }
}
