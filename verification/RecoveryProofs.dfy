/** What a status GET records about an execution keeps the invariants. */
module RecoveryProofs {
  import opened Domain
  import opened Tables
  import opened RecoveryTransactions
  import opened Invariants
  import opened Shapes

  predicate ObserveStep(db: DB, e: DB, x: Execution, seen: PostSend, at: Time) {
    ObserveAdmits(db, x, seen) && e == ObserveCommit(db, x, seen, at)
  }

  lemma ObserveLocal(db: DB, e: DB, x: Execution, seen: PostSend, at: Time)
    requires AttemptRefs(db.tasks, db.contracts, db.attempts) && SessionInv(db.tasks, db.attempts, db.sessions)
    requires CurrentIsOpen(db.tasks, db.attempts)
    requires ObserveStep(db, e, x, seen, at)
    ensures RowOnly(db, e, x.attempt)
    ensures NoLiveStop(db.stops, x.task) && CurrentSent(db, x.task) ==> SagaLocal(db, e, x.attempt)
  {
    if ObserveIgnored(x, seen) {
      assert e.tasks == db.tasks[x.task := db.tasks[x.task]];
      assert e.sessions == db.sessions[x.pair := db.sessions[x.pair]];
    }
  }

  /** The current attempts of a task have had their send confirmed. */
  predicate CurrentSent(db: DB, task: Id) {
    forall d | d in db.dispatches ::
      IsCurrent(db.tasks, db.attempts, db.dispatches[d].bound.attempt) && db.dispatches[d].bound.task == task
      ==> db.dispatches[d].stage.SendConfirmed?
  }

  lemma ObserveKeeps(db: DB, e: DB, x: Execution, seen: PostSend, at: Time)
    requires Inv(db) && ObserveStep(db, e, x, seen, at)
    ensures Inv(e)
  {
    ObserveLocal(db, e, x, seen, at);
    RowKeepsInv(db, e, x.attempt);
  }

  lemma ObserveSaga(db: DB, e: DB, x: Execution, seen: PostSend, at: Time)
    requires AttemptRefs(db.tasks, db.contracts, db.attempts) && SessionInv(db.tasks, db.attempts, db.sessions)
    requires CurrentIsOpen(db.tasks, db.attempts) && NumbersUnique(db.attempts)
    requires DispatchRefs(db.tasks, db.attempts, db.dispatches) && SagaCore(db)
    requires StopRows(db.tasks, db.attempts, db.sessions, db.stops)
    requires ObserveStep(db, e, x, seen, at)
    ensures SagaCore(e)
  {
    ObservedIsUnowned(db, x);
    ObservedIsSent(db, x);
    ObserveLocal(db, e, x, seen, at);
    RowKeepsSaga(db, e, x.attempt);
  }

  /** guardStopOwnedExecutionTx leaves no in-flight live stop on the task. */
  lemma ObservedIsUnowned(db: DB, x: Execution)
    requires NumbersUnique(db.attempts) && LiveStopsHold(db.tasks, db.attempts, db.stops)
    requires StopRows(db.tasks, db.attempts, db.sessions, db.stops)
    requires DispatchRefs(db.tasks, db.attempts, db.dispatches)
    requires ExecutionUnchanged(db, x)
    ensures NoLiveStop(db.stops, x.task)
  {
    if !NoLiveStop(db.stops, x.task) {
      var o :| o in db.stops && db.stops[o].target.purpose.RunningAttemptStop? && db.stops[o].resolution.InFlight?
               && db.stops[o].target.lineage.Some? && db.stops[o].target.lineage.value.task == x.task;
      LiveStopOwns(db, x, o);
    }
  }

  /** An in-flight live stop of the task names the same current attempt. */
  lemma LiveStopOwns(db: DB, x: Execution, o: Id)
    requires NumbersUnique(db.attempts) && LiveStopsHold(db.tasks, db.attempts, db.stops)
    requires StopRows(db.tasks, db.attempts, db.sessions, db.stops)
    requires DispatchRefs(db.tasks, db.attempts, db.dispatches)
    requires HasExecution(db, x.op) && ExecutionOf(db, x.op) == x
    requires o in db.stops && db.stops[o].target.purpose.RunningAttemptStop? && db.stops[o].resolution.InFlight?
    requires db.stops[o].target.lineage.Some? && db.stops[o].target.lineage.value.task == x.task
    ensures StopOwned(db.stops, x)
  {
    var t := db.stops[o].target;
    var l := t.lineage.value;
    assert LiveStopHolds(db.tasks, db.attempts, t) && StopRefs(db.tasks, db.attempts, db.sessions, t);
    assert l.attempt == x.attempt;
  }

  lemma ObservedIsSent(db: DB, x: Execution)
    requires NumbersUnique(db.attempts) && DispatchRefs(db.tasks, db.attempts, db.dispatches)
    requires ExecutionUnchanged(db, x)
    ensures CurrentSent(db, x.task)
  {
    forall d | d in db.dispatches && IsCurrent(db.tasks, db.attempts, db.dispatches[d].bound.attempt) && db.dispatches[d].bound.task == x.task
      ensures d == x.op
    {
      assert db.dispatches[d].bound.attempt == x.attempt;
    }
  }
}
