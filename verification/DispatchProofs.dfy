/** Every transaction of DispatchTransactions keeps the invariants. */
module DispatchProofs {
  import opened Domain
  import opened Tables
  import opened TaskTransactions
  import opened DispatchTransactions
  import opened Invariants
  import opened Shapes

  // --- dispositions and audit events only -----------------------------------------

  /** Rewriting the disposition of one attempt, with more audit events. */
  predicate DispositionStep(db: DB, e: DB, a: Id, why: Option<Disposition>) {
    && a in db.attempts && db.log <= e.log
    && e == db.(attempts := db.attempts[a := db.attempts[a].(disposition := why)], log := e.log)
  }

  lemma DispositionLocal(db: DB, e: DB, a: Id, why: Option<Disposition>)
    requires AttemptRefs(db.tasks, db.contracts, db.attempts) && SessionInv(db.tasks, db.attempts, db.sessions)
    requires CurrentIsOpen(db.tasks, db.attempts)
    requires DispositionStep(db, e, a, why)
    ensures RowOnly(db, e, a) && SagaLocal(db, e, a)
  {
    var p := db.tasks[db.attempts[a].lineage.task].pair;
    assert e.sessions == db.sessions[p := db.sessions[p]];
  }

  lemma DispositionKeeps(db: DB, e: DB, a: Id, why: Option<Disposition>)
    requires Inv(db) && DispositionStep(db, e, a, why)
    ensures Inv(e)
  {
    DispositionLocal(db, e, a, why);
    RowKeepsInv(db, e, a);
  }

  lemma DispositionSaga(db: DB, e: DB, a: Id, why: Option<Disposition>)
    requires AttemptRefs(db.tasks, db.contracts, db.attempts) && SessionInv(db.tasks, db.attempts, db.sessions)
    requires CurrentIsOpen(db.tasks, db.attempts) && DispatchRefs(db.tasks, db.attempts, db.dispatches) && SagaCore(db)
    requires DispositionStep(db, e, a, why)
    ensures SagaCore(e)
  {
    DispositionLocal(db, e, a, why);
    RowKeepsSaga(db, e, a);
  }

  lemma LogKeeps(db: DB, e: DB)
    requires Inv(db) && e == db.(log := e.log) && db.log <= e.log
    ensures Inv(e) && (SagaCore(db) ==> SagaCore(e))
  {
    LogGrows(db.stops, db.log, e.log);
  }

  // --- PrepareBoundDispatch -----------------------------------------------------------

  predicate PrepareStep(db: DB, e: DB, x: Allocation) {
    && PrepareAdmits(db, x.task, x.contract, x.attempt, x.op, x.session, x.gen)
    && e == PrepareCommit(db, x.task, x.contract, x.attempt, x.op, x.session, x.gen)
  }

  lemma PrepareNumbers(db: DB, e: DB, x: Allocation)
    requires PrepareStep(db, e, x)
    requires NumbersComplete(db.tasks, db.attempts) && NumbersUnique(db.attempts) && AttemptRefs(db.tasks, db.contracts, db.attempts)
    ensures NumbersComplete(e.tasks, e.attempts) && NumbersUnique(e.attempts)
  {
    forall k, n: nat | k in e.tasks && 1 <= n <= e.tasks[k].current
      ensures Numbered(e.attempts, k, n)
    {
      if k == x.task && n == e.tasks[k].current {
        assert HasNumber(e.attempts, x.attempt, k, n);
      } else {
        assert Numbered(db.attempts, k, n);
        var a :| HasNumber(db.attempts, a, k, n);
        assert HasNumber(e.attempts, a, k, n);
      }
    }
  }

  /** Walking down from a later revision reaches c through a frozen predecessor. */
  lemma {:induction false} SupersededIsFrozen(tasks: map<Id, Task>, contracts: map<Id, Contract>, c: Id, later: Id)
    requires ContractRows(tasks, contracts) && RevisionsUnique(contracts)
    requires c in contracts && later in contracts && contracts[c].task == contracts[later].task
    requires c != later && contracts[c].revision <= contracts[later].revision
    ensures contracts[c].frozen
    decreases contracts[later].revision
  {
    var p := contracts[later].supersedes.value;
    if p != c {
      SupersededIsFrozen(tasks, contracts, c, p);
    }
  }

  /** Freezing the latest revision leaves no mutable contract on the task. */
  lemma PrepareFreezes(tasks: map<Id, Task>, contracts: map<Id, Contract>, task: Id, latest: Id)
    requires ContractRows(tasks, contracts) && RevisionsUnique(contracts) && IsLatest(contracts, latest, task)
    ensures forall c | c in contracts && contracts[c].task == task && c != latest :: contracts[c].frozen
  {
    forall c | c in contracts && contracts[c].task == task && c != latest ensures contracts[c].frozen {
      SupersededIsFrozen(tasks, contracts, c, latest);
    }
  }

  lemma PrepareContracts(db: DB, e: DB, x: Allocation)
    requires PrepareStep(db, e, x)
    requires ContractLineage(db.tasks, db.contracts)
    ensures ContractLineage(e.tasks, e.contracts)
  {
    PrepareFreezes(db.tasks, db.contracts, x.task, x.contract);
    PrepareContractRows(db, e, x);
  }

  /** Freezing one contract keeps the revision chain. */
  lemma PrepareContractRows(db: DB, e: DB, x: Allocation)
    requires PrepareStep(db, e, x)
    requires ContractRows(db.tasks, db.contracts) && RevisionsUnique(db.contracts)
    ensures ContractRows(e.tasks, e.contracts) && RevisionsUnique(e.contracts)
  {
    FrozenRows(db.tasks, e.tasks, db.contracts, x.contract);
  }

  lemma FrozenRows(tasks: map<Id, Task>, moved: map<Id, Task>, contracts: map<Id, Contract>, c: Id)
    requires ContractRows(tasks, contracts) && RevisionsUnique(contracts) && c in contracts && tasks.Keys <= moved.Keys
    ensures var next := contracts[c := contracts[c].(frozen := true)]; ContractRows(moved, next) && RevisionsUnique(next)
  {
  }

  lemma PrepareRevisions(db: DB, e: DB, x: Allocation)
    requires PrepareStep(db, e, x)
    requires AttemptRefs(db.tasks, db.contracts, db.attempts) && RevisionsMonotone(db.contracts, db.attempts)
    ensures RevisionsMonotone(e.contracts, e.attempts)
  {
  }

  lemma PrepareOpen(db: DB, e: DB, x: Allocation)
    requires PrepareStep(db, e, x)
    requires AttemptRefs(db.tasks, db.contracts, db.attempts) && CurrentIsOpen(db.tasks, db.attempts) && OneLane(db.tasks)
    ensures AttemptRefs(e.tasks, e.contracts, e.attempts) && CurrentIsOpen(e.tasks, e.attempts) && OneLane(e.tasks)
  {
    forall k | k in e.attempts && IsCurrent(e.tasks, e.attempts, k) && OpenState(e.tasks[e.attempts[k].lineage.task].state)
      ensures e.attempts[k].ended.None?
    {
      if k != x.attempt { assert IsCurrent(db.tasks, db.attempts, k); }
    }
  }

  lemma PrepareRefs(db: DB, e: DB, x: Allocation)
    requires PrepareStep(db, e, x) && DispatchRefs(db.tasks, db.attempts, db.dispatches)
    ensures DispatchRefs(e.tasks, e.attempts, e.dispatches)
  {
  }

  lemma PrepareDispatches(db: DB, e: DB, x: Allocation)
    requires PrepareStep(db, e, x) && DispatchComplete(db.attempts, db.dispatches) && BudgetInv(db.dispatches, db.budgets)
    ensures DispatchComplete(e.attempts, e.dispatches) && BudgetInv(e.dispatches, e.budgets)
  {
    forall k | k in e.attempts ensures exists d :: Dispatches(e.dispatches, d, k) {
      if k == x.attempt {
        assert Dispatches(e.dispatches, x.op, k);
      } else {
        var d :| Dispatches(db.dispatches, d, k);
        assert Dispatches(e.dispatches, d, k);
      }
    }
  }

  lemma PrepareSessions(db: DB, e: DB, x: Allocation)
    requires PrepareStep(db, e, x)
    requires SessionInv(db.tasks, db.attempts, db.sessions) && RestoreExcludesOpen(db.tasks, db.attempts, db.restores)
    ensures SessionInv(e.tasks, e.attempts, e.sessions) && RestoreExcludesOpen(e.tasks, e.attempts, e.restores)
  {
    forall r, a | r in e.restores && a in e.attempts && a != x.attempt
                  && !e.restores[r].resolution.RestoreResolved? && OnPair(e.tasks, e.attempts, a, e.restores[r].tuple.pair)
      ensures e.attempts[a].ended.Some?
    {
      assert OnPair(db.tasks, db.attempts, a, db.restores[r].tuple.pair);
    }
    forall r | r in e.restores && !e.restores[r].resolution.RestoreResolved?
      ensures e.restores[r].tuple.pair != db.tasks[x.task].pair
    {
      assert Unresolved(db.restores, r, db.restores[r].tuple.pair);
    }
  }

  lemma PrepareStops(db: DB, e: DB, x: Allocation)
    requires PrepareStep(db, e, x) && StopInv(db)
    ensures StopInv(e)
  {
    forall o | o in e.stops ensures StopRefs(e.tasks, e.attempts, e.sessions, e.stops[o].target) {
      assert StopRefs(db.tasks, db.attempts, db.sessions, db.stops[o].target);
    }
    LogGrows(db.stops, db.log, e.log);
  }

  lemma PrepareKeeps(db: DB, e: DB, x: Allocation)
    requires Inv(db) && PrepareStep(db, e, x)
    ensures Inv(e)
  {
    PrepareNumbers(db, e, x);
    PrepareContracts(db, e, x);
    PrepareRevisions(db, e, x);
    PrepareOpen(db, e, x);
    PrepareRefs(db, e, x);
    PrepareDispatches(db, e, x);
    PrepareSessions(db, e, x);
    PrepareStops(db, e, x);
  }

  lemma PrepareSends(db: DB, e: DB, x: Allocation)
    requires PrepareStep(db, e, x)
    requires AttemptRefs(db.tasks, db.contracts, db.attempts) && DispatchRefs(db.tasks, db.attempts, db.dispatches)
    requires SendsConfirmed(db.tasks, db.attempts, db.dispatches)
    ensures SendsConfirmed(e.tasks, e.attempts, e.dispatches)
  {
    forall d | d in e.dispatches && IsCurrent(e.tasks, e.attempts, e.dispatches[d].bound.attempt)
               && ConfirmedState(e.tasks[e.attempts[e.dispatches[d].bound.attempt].lineage.task].state)
      ensures e.dispatches[d].stage.SendConfirmed?
    {
      assert IsCurrent(db.tasks, db.attempts, db.dispatches[d].bound.attempt);
    }
  }

  lemma PrepareLiveStops(db: DB, e: DB, x: Allocation)
    requires PrepareStep(db, e, x)
    requires LiveStopsHold(db.tasks, db.attempts, db.stops)
    ensures LiveStopsHold(e.tasks, e.attempts, e.stops)
  {
    forall o | o in e.stops && e.stops[o].target.purpose.RunningAttemptStop? && e.stops[o].resolution.InFlight?
      ensures LiveStopHolds(e.tasks, e.attempts, e.stops[o].target)
    {
      assert LiveStopHolds(db.tasks, db.attempts, db.stops[o].target);
    }
  }

  // --- the send protocol -----------------------------------------------------------------

  /** A stage change of one operation. */
  predicate StageStep(db: DB, e: DB, op: Id) {
    && op in db.dispatches && op in e.dispatches && !db.dispatches[op].unknown && db.log <= e.log
    && e == db.(dispatches := db.dispatches[op := e.dispatches[op]], budgets := e.budgets, log := e.log)
    && e.dispatches[op].bound == db.dispatches[op].bound && !e.dispatches[op].unknown
    && (db.dispatches[op].stage.SendConfirmed? ==> e.dispatches[op].stage.SendConfirmed?)
  }

  lemma StageRefs(db: DB, e: DB, op: Id)
    requires StageStep(db, e, op) && DispatchRefs(db.tasks, db.attempts, db.dispatches)
    ensures DispatchRefs(e.tasks, e.attempts, e.dispatches)
  {
  }

  lemma StageDispatches(db: DB, e: DB, op: Id)
    requires DispatchInv(db) && StageStep(db, e, op) && BudgetInv(e.dispatches, e.budgets)
    ensures DispatchInv(e)
  {
    StageRefs(db, e, op);
    StagesComplete(db.attempts, e.attempts, db.dispatches, e.dispatches);
  }

  lemma StageKeeps(db: DB, e: DB, op: Id)
    requires Inv(db) && StageStep(db, e, op) && BudgetInv(e.dispatches, e.budgets)
    ensures Inv(e)
  {
    StageDispatches(db, e, op);
    LogGrows(db.stops, db.log, e.log);
  }

  lemma StageSaga(db: DB, e: DB, op: Id)
    requires SagaCore(db) && StageStep(db, e, op)
    ensures SagaCore(e)
  {
  }

  lemma SendRequestedBudgets(db: DB, op: Id, seen: Observation, activity: Activity)
    requires BudgetInv(db.dispatches, db.budgets) && SendRequestedAdmits(db, op, seen, activity)
    ensures var e := SendRequestedCommit(db, op); BudgetInv(e.dispatches, e.budgets) && StageStep(db, e, op)
  {
  }

  lemma SendConfirmedBudgets(db: DB, op: Id, http200: bool, at: Time, duration: int, policy: Id)
    requires DispatchRefs(db.tasks, db.attempts, db.dispatches) && BudgetInv(db.dispatches, db.budgets)
    requires SendConfirmedAdmits(db, op, http200, at, duration)
    ensures var e := SendConfirmedCommit(db, op, at, duration, policy); BudgetInv(e.dispatches, e.budgets) && StageStep(db, e, op)
  {
    assert forall d | d in db.dispatches && d != op :: db.dispatches[d].bound.attempt != db.dispatches[op].bound.attempt;
  }

  lemma SendRequestedKeeps(db: DB, op: Id, seen: Observation, activity: Activity)
    requires Inv(db) && SendRequestedAdmits(db, op, seen, activity)
    ensures Inv(SendRequestedCommit(db, op))
  {
    SendRequestedBudgets(db, op, seen, activity);
    StageKeeps(db, SendRequestedCommit(db, op), op);
  }

  lemma SendConfirmedKeeps(db: DB, op: Id, http200: bool, at: Time, duration: int, policy: Id)
    requires Inv(db) && SendConfirmedAdmits(db, op, http200, at, duration)
    ensures Inv(SendConfirmedCommit(db, op, at, duration, policy))
  {
    SendConfirmedBudgets(db, op, http200, at, duration, policy);
    StageKeeps(db, SendConfirmedCommit(db, op, at, duration, policy), op);
  }

  /** What RecordUnknownDelivery does to rows other than the operation. */
  lemma UnknownLocal(db: DB, e: DB, op: Id, at: Time)
    requires AttemptRefs(db.tasks, db.contracts, db.attempts)
    requires UnknownDeliveryAdmits(db, op) && e == UnknownDeliveryCommit(db, op, at)
    ensures var a := db.dispatches[op].bound.attempt;
      RowStep(db, e, a) && StateLocal(db, e, a) && SessionLocal(db, e, a)
  {
  }

  lemma UnknownDispatches(db: DB, e: DB, op: Id, at: Time)
    requires DispatchInv(db) && UnknownDeliveryAdmits(db, op) && e == UnknownDeliveryCommit(db, op, at)
    ensures DispatchInv(e)
  {
    UnknownRefs(db, e, op, at);
    StagesComplete(db.attempts, e.attempts, db.dispatches, e.dispatches);
    UnknownBudgets(db.dispatches, db.budgets, op);
  }

  lemma UnknownBudgets(dispatches: map<Id, Dispatch>, budgets: map<Id, Budget>, op: Id)
    requires BudgetInv(dispatches, budgets) && op in dispatches
    ensures BudgetInv(dispatches[op := dispatches[op].(unknown := true)], budgets)
  {
  }

  lemma UnknownRefs(db: DB, e: DB, op: Id, at: Time)
    requires DispatchRefs(db.tasks, db.attempts, db.dispatches)
    requires UnknownDeliveryAdmits(db, op) && e == UnknownDeliveryCommit(db, op, at)
    ensures DispatchRefs(e.tasks, e.attempts, e.dispatches) && SameStages(db.dispatches, e.dispatches)
  {
  }

  lemma UnknownDeliveryKeeps(db: DB, e: DB, op: Id, at: Time)
    requires Inv(db) && UnknownDeliveryAdmits(db, op) && e == UnknownDeliveryCommit(db, op, at)
    ensures Inv(e)
  {
    var a := db.dispatches[op].bound.attempt;
    UnknownLocal(db, e, op, at);
    RowCore(db, e, a);
    RowStops(db, e, a);
    UnknownDispatches(db, e, op, at);
  }

  /** An in-flight live stop belongs to a RUNNING task. */
  lemma OnlyRunningIsStopped(db: DB, t: Id)
    requires LiveStopsHold(db.tasks, db.attempts, db.stops) && t in db.tasks && !db.tasks[t].state.Running?
    ensures NoLiveStop(db.stops, t)
  {
    forall o | o in db.stops && db.stops[o].target.purpose.RunningAttemptStop? && db.stops[o].resolution.InFlight?
      ensures LiveStopHolds(db.tasks, db.attempts, db.stops[o].target) {}
  }

  lemma UnknownDeliverySaga(db: DB, e: DB, op: Id, at: Time)
    requires AttemptRefs(db.tasks, db.contracts, db.attempts) && DispatchInv(db) && SagaCore(db)
    requires UnknownDeliveryAdmits(db, op) && e == UnknownDeliveryCommit(db, op, at)
    ensures SagaCore(e)
  {
    var b := db.dispatches[op].bound;
    OnlyRunningIsStopped(db, b.task);
    UnknownLocal(db, e, op, at);
    UnknownRefs(db, e, op, at);
    RowSends(db, e, b.attempt);
    RowLiveStops(db, e, b.attempt);
  }

  // --- closing an attempt -------------------------------------------------------------------

  lemma TerminalLocal(db: DB, e: DB, task: Id, from: TaskState, attempt: Id, why: Disposition, at: Time)
    requires AttemptRefs(db.tasks, db.contracts, db.attempts) && SessionInv(db.tasks, db.attempts, db.sessions)
    requires TerminalAdmits(db, task, from, attempt, why) && e == TerminalCommit(db, task, from, attempt, why, at)
    ensures RowOnly(db, e, attempt) && (NoLiveStop(db.stops, task) ==> SagaLocal(db, e, attempt))
  {
    var p := db.tasks[task].pair;
    assert e.sessions == db.sessions[p := e.sessions[p]];
  }

  lemma TerminalKeeps(db: DB, e: DB, task: Id, from: TaskState, attempt: Id, why: Disposition, at: Time)
    requires Inv(db) && TerminalAdmits(db, task, from, attempt, why) && e == TerminalCommit(db, task, from, attempt, why, at)
    ensures Inv(e)
  {
    TerminalLocal(db, e, task, from, attempt, why, at);
    RowKeepsInv(db, e, attempt);
  }

  lemma TerminalSaga(db: DB, e: DB, task: Id, from: TaskState, attempt: Id, why: Disposition, at: Time)
    requires AttemptRefs(db.tasks, db.contracts, db.attempts) && SessionInv(db.tasks, db.attempts, db.sessions)
    requires DispatchRefs(db.tasks, db.attempts, db.dispatches) && SagaCore(db) && from.Dispatched?
    requires TerminalAdmits(db, task, from, attempt, why) && e == TerminalCommit(db, task, from, attempt, why, at)
    ensures SagaCore(e)
  {
    OnlyRunningIsStopped(db, task);
    TerminalLocal(db, e, task, from, attempt, why, at);
    RowKeepsSaga(db, e, attempt);
  }

  lemma ClosureLocal(db: DB, e: DB, task: Id, attempt: Id, at: Time)
    requires AttemptRefs(db.tasks, db.contracts, db.attempts) && SessionInv(db.tasks, db.attempts, db.sessions)
    requires ClosureAdmits(db, task, attempt) && e == ClosureCommit(db, task, attempt, at)
    ensures RowOnly(db, e, attempt) && (NoLiveStop(db.stops, task) ==> SagaLocal(db, e, attempt))
  {
    var p := db.tasks[task].pair;
    assert e.sessions == db.sessions[p := e.sessions[p]];
  }

  lemma ClosureKeeps(db: DB, e: DB, task: Id, attempt: Id, at: Time)
    requires Inv(db) && ClosureAdmits(db, task, attempt) && e == ClosureCommit(db, task, attempt, at)
    ensures Inv(e)
  {
    ClosureLocal(db, e, task, attempt, at);
    RowKeepsInv(db, e, attempt);
  }

  lemma ClosureSaga(db: DB, e: DB, task: Id, attempt: Id, at: Time)
    requires AttemptRefs(db.tasks, db.contracts, db.attempts) && SessionInv(db.tasks, db.attempts, db.sessions)
    requires DispatchRefs(db.tasks, db.attempts, db.dispatches) && SagaCore(db)
    requires ClosureAdmits(db, task, attempt) && e == ClosureCommit(db, task, attempt, at)
    ensures SagaCore(e)
  {
    OnlyRunningIsStopped(db, task);
    ClosureLocal(db, e, task, attempt, at);
    RowKeepsSaga(db, e, attempt);
  }
}
