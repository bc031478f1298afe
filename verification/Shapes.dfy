/** Most transactions change the state of one task, one attempt row and one session row.
    The lemmas here carry the invariant over such a step, given what the step does locally. */
module Shapes {
  import opened Domain
  import opened Tables
  import opened Invariants
  import opened StopTransactions

  /** The step rewrites only the state of attempt a's task, the row of a (never its lineage)
      and the status and quarantine of its Pair's session. */
  predicate RowStep(db: DB, e: DB, a: Id) {
    && a in db.attempts && a in e.attempts
    && var t := db.attempts[a].lineage.task;
    && t in db.tasks && t in e.tasks
    && var p := db.tasks[t].pair;
    && p in db.sessions && p in e.sessions
    && e.tasks == db.tasks[t := db.tasks[t].(state := e.tasks[t].state)]
    && e.attempts == db.attempts[a := e.attempts[a]]
    && e.attempts[a].lineage == db.attempts[a].lineage && (db.attempts[a].ended.Some? ==> e.attempts[a].ended.Some?)
    && e.sessions == db.sessions[p := e.sessions[p]]
    && e.sessions[p].session == db.sessions[p].session && e.sessions[p].gen == db.sessions[p].gen
    && e.contracts == db.contracts && e.provisions == db.provisions && e.restores == db.restores
  }

  /** The new state opens nothing, and an attempt is not closed under an open state. */
  predicate StateLocal(db: DB, e: DB, a: Id)
    requires RowStep(db, e, a)
  {
    var t := db.attempts[a].lineage.task;
    var was, now := db.tasks[t].state, e.tasks[t].state;
    && (OpenState(now) ==> OpenState(was) && (e.attempts[a].ended.Some? ==> db.attempts[a].ended.Some?))
    && (LaneState(now) ==> LaneState(was))
    && (FrozenState(now) ==> FrozenState(was))
  }

  /** The session stays quarantined while anything on the Pair needs it. */
  predicate SessionLocal(db: DB, e: DB, a: Id)
    requires RowStep(db, e, a)
  {
    var p := db.tasks[db.attempts[a].lineage.task].pair;
    && (e.attempts[a].quarantined ==> e.sessions[p].quarantined)
    && (db.sessions[p].quarantined && !e.sessions[p].quarantined ==>
          && !UnresolvedRestore(db.restores, p)
          && forall k | k in db.attempts :: k != a && OnPair(db.tasks, db.attempts, k, p) ==> !db.attempts[k].quarantined)
  }

  lemma RowNumbers(db: DB, e: DB, a: Id)
    requires NumbersComplete(db.tasks, db.attempts) && NumbersUnique(db.attempts)
    requires RowStep(db, e, a)
    ensures NumbersComplete(e.tasks, e.attempts) && NumbersUnique(e.attempts)
  {
    forall k, n: nat | k in e.tasks && 1 <= n <= e.tasks[k].current
      ensures Numbered(e.attempts, k, n)
    {
      assert Numbered(db.attempts, k, n);
      var x :| HasNumber(db.attempts, x, k, n);
      assert HasNumber(e.attempts, x, k, n);
    }
  }

  lemma RowContracts(db: DB, e: DB, a: Id)
    requires ContractLineage(db.tasks, db.contracts) && RevisionsMonotone(db.contracts, db.attempts)
    requires RowStep(db, e, a) && StateLocal(db, e, a)
    ensures ContractLineage(e.tasks, e.contracts) && RevisionsMonotone(e.contracts, e.attempts)
  {
    hide ContractRows, FrozenContracts, RevisionsUnique, RevisionsMonotone;
    ContractRowsKept(db.tasks, e.tasks, db.contracts);
    RowFrozen(db, e, a);
    MonotoneKept(db.contracts, db.attempts, e.attempts);
  }

  lemma ContractRowsKept(tasks: map<Id, Task>, more: map<Id, Task>, contracts: map<Id, Contract>)
    requires ContractRows(tasks, contracts) && tasks.Keys <= more.Keys
    ensures ContractRows(more, contracts)
  {}

  lemma RowFrozen(db: DB, e: DB, a: Id)
    requires FrozenContracts(db.tasks, db.contracts) && RowStep(db, e, a) && StateLocal(db, e, a)
    ensures FrozenContracts(e.tasks, e.contracts)
  {}

  lemma MonotoneKept(contracts: map<Id, Contract>, attempts: map<Id, Attempt>, more: map<Id, Attempt>)
    requires RevisionsMonotone(contracts, attempts) && more.Keys == attempts.Keys
    requires forall a | a in attempts :: more[a].lineage == attempts[a].lineage
    ensures RevisionsMonotone(contracts, more)
  {}

  lemma RowOpen(db: DB, e: DB, a: Id)
    requires AttemptRefs(db.tasks, db.contracts, db.attempts) && CurrentIsOpen(db.tasks, db.attempts) && OneLane(db.tasks)
    requires RowStep(db, e, a) && StateLocal(db, e, a)
    ensures AttemptRefs(e.tasks, e.contracts, e.attempts) && CurrentIsOpen(e.tasks, e.attempts) && OneLane(e.tasks)
  {
    forall k | k in e.attempts && IsCurrent(e.tasks, e.attempts, k) && OpenState(e.tasks[e.attempts[k].lineage.task].state)
      ensures e.attempts[k].ended.None?
    {
      assert IsCurrent(db.tasks, db.attempts, k);
    }
  }

  lemma RowLineage(db: DB, e: DB, a: Id)
    requires LineageInv(db) && RowStep(db, e, a) && StateLocal(db, e, a)
    ensures LineageInv(e)
  {
    RowNumbers(db, e, a);
    RowContracts(db, e, a);
    RowOpen(db, e, a);
  }

  lemma RowSession(db: DB, e: DB, a: Id)
    requires AttemptRefs(db.tasks, db.contracts, db.attempts)
    requires SessionInv(db.tasks, db.attempts, db.sessions)
    requires RowStep(db, e, a) && SessionLocal(db, e, a)
    ensures SessionInv(e.tasks, e.attempts, e.sessions)
  {
    forall k | k in e.attempts && e.attempts[k].lineage.task in e.tasks
      ensures var pair := e.tasks[e.attempts[k].lineage.task].pair;
        && pair in e.sessions && e.sessions[pair].session == e.attempts[k].lineage.session
        && (e.attempts[k].ended.None? ==> e.sessions[pair].gen == e.attempts[k].lineage.gen)
        && (e.attempts[k].quarantined ==> e.sessions[pair].quarantined)
    {
      if k != a {
        assert OnPair(db.tasks, db.attempts, k, e.tasks[e.attempts[k].lineage.task].pair);
      }
    }
  }

  lemma RowRestores(db: DB, e: DB, a: Id)
    requires RestoreInv(db.restores, db.sessions) && RestoreExcludesOpen(db.tasks, db.attempts, db.restores)
    requires RowStep(db, e, a) && SessionLocal(db, e, a)
    ensures RestoreInv(e.restores, e.sessions) && RestoreExcludesOpen(e.tasks, e.attempts, e.restores)
  {
    forall q | q in e.restores && !e.restores[q].resolution.RestoreResolved?
      ensures e.restores[q].tuple.pair in e.sessions && e.sessions[e.restores[q].tuple.pair].quarantined
    {
      assert Unresolved(db.restores, q, db.restores[q].tuple.pair);
    }
    forall q, k | q in e.restores && k in e.attempts && !e.restores[q].resolution.RestoreResolved?
                  && OnPair(e.tasks, e.attempts, k, e.restores[q].tuple.pair)
      ensures e.attempts[k].ended.Some?
    {
      assert OnPair(db.tasks, db.attempts, k, db.restores[q].tuple.pair);
    }
  }

  lemma RowProvisions(db: DB, e: DB, a: Id)
    requires ProvisionInv(db.provisions, db.sessions) && RowStep(db, e, a)
    ensures ProvisionInv(e.provisions, e.sessions)
  {
  }

  /** Every attempt keeps its operation when bindings are kept. */
  lemma StagesComplete(attempts: map<Id, Attempt>, moved: map<Id, Attempt>, dispatches: map<Id, Dispatch>, next: map<Id, Dispatch>)
    requires DispatchComplete(attempts, dispatches) && moved.Keys == attempts.Keys
    requires forall d | d in dispatches :: d in next && next[d].bound == dispatches[d].bound
    ensures DispatchComplete(moved, next)
  {
    forall k | k in moved ensures exists d :: Dispatches(next, d, k) {
      var d :| Dispatches(dispatches, d, k);
      assert Dispatches(next, d, k);
    }
  }

  lemma RowDispatches(db: DB, e: DB, a: Id)
    requires DispatchInv(db) && RowStep(db, e, a)
    requires e.dispatches == db.dispatches && e.budgets == db.budgets
    ensures DispatchInv(e)
  {
    StagesComplete(db.attempts, e.attempts, db.dispatches, e.dispatches);
  }

  lemma RowStopRefs(db: DB, e: DB, a: Id, x: StopTarget)
    requires RowStep(db, e, a) && StopRefs(db.tasks, db.attempts, db.sessions, x)
    ensures StopRefs(e.tasks, e.attempts, e.sessions, x)
  {
  }

  lemma RowStops(db: DB, e: DB, a: Id)
    requires StopInv(db) && RowStep(db, e, a)
    requires e.stops == db.stops && e.stopOrder == db.stopOrder && db.log <= e.log
    ensures StopInv(e)
  {
    RowRefs(db, e, a);
    SameStopsKept(db, e);
  }

  lemma LogGrows(stops: map<Id, Stop>, log: seq<Event>, more: seq<Event>)
    requires EvidenceLogged(stops, log) && log <= more
    ensures EvidenceLogged(stops, more)
  {
    forall o | o in stops && ConfirmedRow(stops[o]) ensures ConfirmationRecorded(more, o, stops[o]) {
      assert ConfirmationRecorded(log, o, stops[o]);
    }
  }

  /** The part of the invariant a row step keeps whatever it does to operations and stops. */
  lemma RowCore(db: DB, e: DB, a: Id)
    requires Inv(db) && RowStep(db, e, a) && StateLocal(db, e, a) && SessionLocal(db, e, a)
    ensures LineageInv(e) && SessionInv(e.tasks, e.attempts, e.sessions) && ProvisionInv(e.provisions, e.sessions)
    ensures RestoreInv(e.restores, e.sessions) && RestoreExcludesOpen(e.tasks, e.attempts, e.restores)
  {
    RowLineage(db, e, a);
    RowSession(db, e, a);
    RowRestores(db, e, a);
    RowProvisions(db, e, a);
  }

  /** A row step that leaves operations and stops alone. */
  predicate RowOnly(db: DB, e: DB, a: Id) {
    && RowStep(db, e, a) && StateLocal(db, e, a) && SessionLocal(db, e, a)
    && e.dispatches == db.dispatches && e.budgets == db.budgets
    && e.stops == db.stops && e.stopOrder == db.stopOrder && db.log <= e.log
  }

  lemma RowKeepsInv(db: DB, e: DB, a: Id)
    requires Inv(db) && RowOnly(db, e, a)
    ensures Inv(e)
  {
    RowCore(db, e, a);
    RowDispatches(db, e, a);
    RowStops(db, e, a);
  }

  // --- saga invariant -----------------------------------------------------------------

  /** No in-flight live stop owns task t. */
  predicate NoLiveStop(stops: map<Id, Stop>, t: Id) {
    forall o | o in stops ::
      stops[o].target.purpose.RunningAttemptStop? && stops[o].resolution.InFlight? && stops[o].target.lineage.Some?
      ==> stops[o].target.lineage.value.task != t
  }

  predicate SagaLocal(db: DB, e: DB, a: Id)
    requires RowStep(db, e, a)
  {
    var t := db.attempts[a].lineage.task;
    && (ConfirmedState(e.tasks[t].state) ==>
          || ConfirmedState(db.tasks[t].state)
          || forall d | d in e.dispatches :: IsCurrent(db.tasks, db.attempts, e.dispatches[d].bound.attempt) && e.dispatches[d].bound.task == t
                                             ==> e.dispatches[d].stage.SendConfirmed?)
    && (|| NoLiveStop(e.stops, t)
        || (e.tasks[t].state == db.tasks[t].state && e.attempts[a].ended == db.attempts[a].ended
            && (db.attempts[a].quarantined ==> e.attempts[a].quarantined)))
  }

  /** Only the unknown flag of operations may change beside the rows. */
  predicate SameStages(dispatches: map<Id, Dispatch>, next: map<Id, Dispatch>) {
    next.Keys == dispatches.Keys
    && forall d | d in dispatches :: next[d].bound == dispatches[d].bound && next[d].stage == dispatches[d].stage
  }

  lemma RowSends(db: DB, e: DB, a: Id)
    requires DispatchRefs(db.tasks, db.attempts, db.dispatches) && SendsConfirmed(db.tasks, db.attempts, db.dispatches)
    requires RowStep(db, e, a) && SagaLocal(db, e, a) && SameStages(db.dispatches, e.dispatches)
    ensures SendsConfirmed(e.tasks, e.attempts, e.dispatches)
  {
    forall d | d in e.dispatches && IsCurrent(e.tasks, e.attempts, e.dispatches[d].bound.attempt)
               && ConfirmedState(e.tasks[e.attempts[e.dispatches[d].bound.attempt].lineage.task].state)
      ensures e.dispatches[d].stage.SendConfirmed?
    {
      assert IsCurrent(db.tasks, db.attempts, db.dispatches[d].bound.attempt);
    }
  }

  lemma RowLiveStops(db: DB, e: DB, a: Id)
    requires LiveStopsHold(db.tasks, db.attempts, e.stops)
    requires RowStep(db, e, a) && SagaLocal(db, e, a)
    ensures LiveStopsHold(e.tasks, e.attempts, e.stops)
  {
    forall o | o in e.stops && e.stops[o].target.purpose.RunningAttemptStop? && e.stops[o].resolution.InFlight?
      ensures LiveStopHolds(e.tasks, e.attempts, e.stops[o].target)
    {
      assert LiveStopHolds(db.tasks, db.attempts, e.stops[o].target);
    }
  }

  lemma RowKeepsSaga(db: DB, e: DB, a: Id)
    requires DispatchRefs(db.tasks, db.attempts, db.dispatches) && SagaCore(db)
    requires RowOnly(db, e, a) && SagaLocal(db, e, a)
    ensures SagaCore(e)
  {
    RowSends(db, e, a);
    RowLiveStops(db, e, a);
  }

  // --- one stop row changes, or one is inserted --------------------------------------------

  /** Row o changes its stage or resolution; nothing becomes pending and nothing settled reopens. */
  predicate StopUpdate(stops: map<Id, Stop>, next: map<Id, Stop>, o: Id, row: Stop) {
    && o in stops && next == stops[o := row] && row.target == stops[o].target
    && (PendingResolution(row.resolution) ==> PendingResolution(stops[o].resolution))
    && (SettledResolution(stops[o].resolution) ==> SettledResolution(row.resolution))
  }

  lemma StopUpdated(stops: map<Id, Stop>, next: map<Id, Stop>, o: Id, row: Stop, restores: map<Id, Restore>, order: seq<Id>)
    requires StopsUnique(stops) && StopOwners(stops, restores) && OrderInv(stops, order)
    requires StopUpdate(stops, next, o, row)
    ensures StopsUnique(next) && StopOwners(next, restores) && OrderInv(next, order)
  {
    forall x, y, pair | PendingStop(next, x, pair) && PendingStop(next, y, pair) ensures x == y {
      assert PendingStop(stops, x, pair) && PendingStop(stops, y, pair);
    }
    forall x, y, k | LiveStop(next, x, k) && LiveStop(next, y, k) ensures x == y {
      assert LiveStop(stops, x, k) && LiveStop(stops, y, k);
    }
    forall x, y, k | LinkedStop(next, x, k) && LinkedStop(next, y, k) ensures x == y {
      assert LinkedStop(stops, x, k) && LinkedStop(stops, y, k);
    }
  }

  predicate StopInsert(stops: map<Id, Stop>, next: map<Id, Stop>, o: Id, t: StopTarget) {
    && o !in stops && next == stops[o := NewStop(t)]
    && !PendingStopOn(stops, t.pair)
    && (t.purpose.RunningAttemptStop? && t.lineage.Some? ==> !LiveStopFor(stops, t.lineage.value.attempt))
    && (t.restore.Some? ==> forall k | k in stops :: stops[k].target.restore != t.restore)
  }

  lemma StopInserted(stops: map<Id, Stop>, next: map<Id, Stop>, o: Id, t: StopTarget, order: seq<Id>)
    requires StopsUnique(stops) && OrderInv(stops, order) && StopInsert(stops, next, o, t)
    ensures StopsUnique(next) && OrderInv(next, order + [o])
  {
    forall x, y, pair | PendingStop(next, x, pair) && PendingStop(next, y, pair) ensures x == y {
      if x != o && y != o { assert PendingStop(stops, x, pair) && PendingStop(stops, y, pair); }
    }
    forall x, y, k | LiveStop(next, x, k) && LiveStop(next, y, k) ensures x == y {
      if x != o && y != o { assert LiveStop(stops, x, k) && LiveStop(stops, y, k); }
    }
    forall x, y, k | LinkedStop(next, x, k) && LinkedStop(next, y, k) ensures x == y {
      if x != o && y != o { assert LinkedStop(stops, x, k) && LinkedStop(stops, y, k); }
    }
    assert forall x | x in next :: x in order || x == o;
    assert forall x | x in order + [o] :: x in order || x == o;
  }

  /** The references of every stop row survive. */
  predicate RefsKept(db: DB, e: DB) {
    forall o | o in db.stops :: StopRefs(e.tasks, e.attempts, e.sessions, db.stops[o].target)
  }

  lemma RowRefs(db: DB, e: DB, a: Id)
    requires StopRows(db.tasks, db.attempts, db.sessions, db.stops) && RowStep(db, e, a)
    ensures RefsKept(db, e)
  {
    forall o | o in db.stops ensures StopRefs(e.tasks, e.attempts, e.sessions, db.stops[o].target) {
      RowStopRefs(db, e, a, db.stops[o].target);
    }
  }

  lemma UpdateKeepsStops(db: DB, e: DB, o: Id, row: Stop)
    requires StopInv(db) && RefsKept(db, e) && StopUpdate(db.stops, e.stops, o, row) && StopRow(row)
    requires e.stopOrder == db.stopOrder && e.restores == db.restores && db.log <= e.log
    requires ConfirmedRow(row) ==> ConfirmationRecorded(e.log, o, row)
    ensures StopInv(e)
  {
    StopUpdated(db.stops, e.stops, o, row, db.restores, db.stopOrder);
    LogGrows(db.stops, db.log, e.log);
  }

  lemma InsertKeepsStops(db: DB, e: DB, o: Id, t: StopTarget)
    requires StopInv(db) && RefsKept(db, e) && StopInsert(db.stops, e.stops, o, t)
    requires StopRefs(e.tasks, e.attempts, e.sessions, t)
    requires e.stopOrder == db.stopOrder + [o] && db.log <= e.log
    requires StopOwners(e.stops, e.restores)
    ensures StopInv(e)
  {
    StopInserted(db.stops, e.stops, o, t, db.stopOrder);
    LogGrows(db.stops, db.log, e.log);
  }

  lemma SameStopsKept(db: DB, e: DB)
    requires StopInv(db) && RefsKept(db, e)
    requires e.stops == db.stops && e.stopOrder == db.stopOrder && e.restores == db.restores && db.log <= e.log
    ensures StopInv(e)
  {
    LogGrows(db.stops, db.log, e.log);
  }

  // --- one session row changes --------------------------------------------------------------

  /** The step rewrites the status of Pair p's session and may quarantine it. */
  predicate SessionStep(db: DB, e: DB, p: Id) {
    && p in db.sessions && p in e.sessions
    && e.sessions == db.sessions[p := e.sessions[p]]
    && e.sessions[p].session == db.sessions[p].session && e.sessions[p].gen == db.sessions[p].gen
    && (db.sessions[p].quarantined ==> e.sessions[p].quarantined)
    && e.tasks == db.tasks && e.contracts == db.contracts && e.attempts == db.attempts
    && e.provisions == db.provisions && e.restores == db.restores
  }

  lemma SessionSessions(db: DB, e: DB, p: Id)
    requires SessionInv(db.tasks, db.attempts, db.sessions) && ProvisionInv(db.provisions, db.sessions)
    requires RestoreInv(db.restores, db.sessions) && SessionStep(db, e, p)
    ensures SessionInv(e.tasks, e.attempts, e.sessions) && ProvisionInv(e.provisions, e.sessions) && RestoreInv(e.restores, e.sessions)
  {
  }

  lemma SessionRefs(db: DB, e: DB, p: Id)
    requires StopRows(db.tasks, db.attempts, db.sessions, db.stops) && SessionStep(db, e, p)
    ensures RefsKept(db, e)
  {
    forall o | o in db.stops ensures StopRefs(e.tasks, e.attempts, e.sessions, db.stops[o].target) {
      assert StopRefs(db.tasks, db.attempts, db.sessions, db.stops[o].target);
    }
  }

  lemma SessionKeepsInv(db: DB, e: DB, p: Id)
    requires Inv(db) && SessionStep(db, e, p) && StopInv(e)
    requires e.dispatches == db.dispatches && e.budgets == db.budgets
    ensures Inv(e)
  {
    SessionSessions(db, e, p);
  }

  // --- one restore row changes ------------------------------------------------------------------

  /** Row r moves forward: it keeps its tuple, and if it was already claimed for cleanup it
      is only left by resolving it with every linked stop settled. */
  predicate RestoreUpdate(stops: map<Id, Stop>, restores: map<Id, Restore>, next: map<Id, Restore>, r: Id, row: Restore) {
    && r in restores && next == restores[r := row] && row.tuple == restores[r].tuple
    && !restores[r].resolution.RestoreResolved?
    && (restores[r].resolution.CleanupClaimed? ==> row.resolution.RestoreResolved?)
    && (row.resolution.RestoreResolved? ==> !UnsettledLinkedStop(stops, r))
  }

  lemma RestoreUpdated(stops: map<Id, Stop>, restores: map<Id, Restore>, next: map<Id, Restore>, r: Id, row: Restore)
    requires StopOwners(stops, restores) && RestoreUpdate(stops, restores, next, r, row)
    ensures StopOwners(stops, next)
  {
    forall q, p | Unresolved(next, q, p) ensures Unresolved(restores, q, p) {}
  }
}
