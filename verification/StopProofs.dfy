/** Every transaction of StopTransactions keeps the invariants. */
module StopProofs {
  import opened Domain
  import opened Tables
  import opened StopTransactions
  import opened Invariants
  import opened Shapes

  // --- ReserveStopOperation -----------------------------------------------------------

  predicate ReserveStep(db: DB, e: DB, op: Id, t: StopTarget) {
    ReserveStopAdmits(db, op, t) && e == ReserveStopCommit(db, op, t)
  }

  /** A live stop quarantines the current open attempt of a RUNNING task with its session. */
  lemma ReserveLiveLocal(db: DB, e: DB, op: Id, t: StopTarget)
    requires ReserveStep(db, e, op, t) && t.purpose.RunningAttemptStop?
    ensures var a := t.lineage.value.attempt; RowStep(db, e, a) && StateLocal(db, e, a) && SessionLocal(db, e, a)
  {
    var k := t.lineage.value.task;
    assert e.tasks == db.tasks[k := db.tasks[k].(state := e.tasks[k].state)];
  }

  lemma ReserveRefs(db: DB, e: DB, op: Id, t: StopTarget)
    requires ReserveStep(db, e, op, t)
    requires StopRows(db.tasks, db.attempts, db.sessions, db.stops)
    ensures RefsKept(db, e) && StopRefs(e.tasks, e.attempts, e.sessions, t)
  {
    if t.purpose.RunningAttemptStop? {
      ReserveLiveLocal(db, e, op, t);
      RowRefs(db, e, t.lineage.value.attempt);
    } else {
      SessionRefs(db, e, t.pair);
    }
  }

  lemma ReserveStops(db: DB, e: DB, op: Id, t: StopTarget)
    requires ReserveStep(db, e, op, t) && StopInv(db)
    ensures StopInv(e)
  {
    ReserveRefs(db, e, op, t);
    InsertKeepsStops(db, e, op, t);
  }

  lemma ReserveLiveKeeps(db: DB, e: DB, op: Id, t: StopTarget)
    requires Inv(db) && ReserveStep(db, e, op, t) && t.purpose.RunningAttemptStop?
    ensures Inv(e)
  {
    ReserveStops(db, e, op, t);
    ReserveLiveLocal(db, e, op, t);
    RowCore(db, e, t.lineage.value.attempt);
    RowDispatches(db, e, t.lineage.value.attempt);
  }

  lemma ReserveIdleLocal(db: DB, e: DB, op: Id, t: StopTarget)
    requires ReserveStep(db, e, op, t) && !t.purpose.RunningAttemptStop?
    ensures SessionStep(db, e, t.pair) && e.dispatches == db.dispatches && e.budgets == db.budgets
  {
  }

  lemma ReserveIdleKeeps(db: DB, e: DB, op: Id, t: StopTarget)
    requires Inv(db) && ReserveStep(db, e, op, t) && !t.purpose.RunningAttemptStop?
    ensures Inv(e)
  {
    ReserveStops(db, e, op, t);
    ReserveIdleLocal(db, e, op, t);
    SessionKeepsInv(db, e, t.pair);
  }

  lemma ReserveKeeps(db: DB, e: DB, op: Id, t: StopTarget)
    requires Inv(db) && ReserveStep(db, e, op, t)
    ensures Inv(e)
  {
    if t.purpose.RunningAttemptStop? {
      ReserveLiveKeeps(db, e, op, t);
    } else {
      ReserveIdleKeeps(db, e, op, t);
    }
  }

  lemma ReserveSaga(db: DB, e: DB, op: Id, t: StopTarget)
    requires ReserveStep(db, e, op, t) && SagaCore(db)
    ensures SagaCore(e)
  {
    forall o | o in e.stops && e.stops[o].target.purpose.RunningAttemptStop? && e.stops[o].resolution.InFlight?
      ensures LiveStopHolds(e.tasks, e.attempts, e.stops[o].target)
    {
      if o != op { assert LiveStopHolds(db.tasks, db.attempts, db.stops[o].target); }
    }
    forall d | d in e.dispatches && IsCurrent(e.tasks, e.attempts, e.dispatches[d].bound.attempt)
      ensures IsCurrent(db.tasks, db.attempts, e.dispatches[d].bound.attempt)
    {}
  }

  // --- one stop row, nothing else --------------------------------------------------------

  /** The row leaves IN_FLIGHT, or keeps the resolution it had, or is accepted as a risk. */
  predicate StopOnly(db: DB, e: DB, o: Id, row: Stop) {
    && StopUpdate(db.stops, e.stops, o, row) && StopRow(row) && db.log <= e.log
    && e == db.(stops := e.stops, log := e.log)
    && (ConfirmedRow(row) ==> ConfirmedRow(db.stops[o]) && row == db.stops[o])
    && (row.resolution.InFlight? ==> db.stops[o].resolution.InFlight?)
  }

  lemma StopOnlyStops(db: DB, e: DB, o: Id, row: Stop)
    requires StopInv(db) && StopOnly(db, e, o, row)
    ensures StopInv(e)
  {
    LogGrows(db.stops, db.log, e.log);
    UpdateKeepsStops(db, e, o, row);
  }

  lemma StopOnlyKeeps(db: DB, e: DB, o: Id, row: Stop)
    requires Inv(db) && StopOnly(db, e, o, row)
    ensures Inv(e)
  {
    StopOnlyStops(db, e, o, row);
  }

  lemma StopOnlySaga(db: DB, e: DB, o: Id, row: Stop)
    requires SagaCore(db) && StopOnly(db, e, o, row)
    ensures SagaCore(e)
  {
  }

  lemma CallAcceptedLocal(db: DB, op: Id, callAt: Time, deadline: Time)
    requires StopRows(db.tasks, db.attempts, db.sessions, db.stops) && CallAcceptedAdmits(db, op, callAt, deadline)
    ensures var e := CallAcceptedCommit(db, op, callAt, deadline); StopOnly(db, e, op, e.stops[op])
  {
  }

  lemma AbandonedLocal(db: DB, op: Id, session: Id, gen: Id, at: Time)
    requires StopRows(db.tasks, db.attempts, db.sessions, db.stops) && AbandonedAdmits(db, op, session, gen)
    ensures var e := AbandonedCommit(db, op, at); StopOnly(db, e, op, e.stops[op])
  {
  }

  lemma AcceptRiskLocal(db: DB, d: Decision)
    requires StopRows(db.tasks, db.attempts, db.sessions, db.stops) && AcceptRiskAdmits(db, d)
    ensures var e := AcceptRiskCommit(db, d); StopOnly(db, e, d.stop, e.stops[d.stop])
  {
    var e := AcceptRiskCommit(db, d);
    assert StopRow(db.stops[d.stop]);
    if DecisionClass(d).ClassB? { assert db.stops == db.stops[d.stop := db.stops[d.stop]]; }
  }

  lemma CallAcceptedKeeps(db: DB, op: Id, callAt: Time, deadline: Time)
    requires Inv(db) && CallAcceptedAdmits(db, op, callAt, deadline)
    ensures Inv(CallAcceptedCommit(db, op, callAt, deadline))
  {
    CallAcceptedLocal(db, op, callAt, deadline);
    var e := CallAcceptedCommit(db, op, callAt, deadline);
    StopOnlyKeeps(db, e, op, e.stops[op]);
  }

  lemma AbandonedKeeps(db: DB, op: Id, session: Id, gen: Id, at: Time)
    requires Inv(db) && AbandonedAdmits(db, op, session, gen)
    ensures Inv(AbandonedCommit(db, op, at))
  {
    AbandonedLocal(db, op, session, gen, at);
    var e := AbandonedCommit(db, op, at);
    StopOnlyKeeps(db, e, op, e.stops[op]);
  }

  lemma AcceptRiskKeeps(db: DB, d: Decision)
    requires Inv(db) && AcceptRiskAdmits(db, d)
    ensures Inv(AcceptRiskCommit(db, d))
  {
    AcceptRiskLocal(db, d);
    var e := AcceptRiskCommit(db, d);
    StopOnlyKeeps(db, e, d.stop, e.stops[d.stop]);
  }

  // --- CommitStopOutcome ---------------------------------------------------------------------

  predicate OutcomeStep(db: DB, e: DB, op: Id, o: Outcome) {
    StopOutcomeAdmits(db, op, o) && e == StopOutcomeCommit(db, op, o)
  }

  /** closeLiveStopTx on the rows beside the stop. */
  lemma CloseLiveLocal(db: DB, e: DB, op: Id, o: Outcome)
    requires OutcomeStep(db, e, op, o) && db.stops[op].target.purpose.RunningAttemptStop?
    requires OwnerAdmits(db.restores, db.stops[op].target) && db.stops[op].target.restore.None?
    ensures var a := db.stops[op].target.lineage.value.attempt; RowStep(db, e, a) && StateLocal(db, e, a) && SessionLocal(db, e, a)
  {
    var t := db.stops[op].target;
    var a := t.lineage.value.attempt;
    if db.sessions[t.pair].quarantined && !e.sessions[t.pair].quarantined {
      forall k | k in db.attempts && k != a && OnPair(db.tasks, db.attempts, k, t.pair) ensures !db.attempts[k].quarantined {}
    }
  }

  lemma TouchRuntimeLocal(db: DB, e: DB, op: Id, o: Outcome)
    requires OutcomeStep(db, e, op, o) && !db.stops[op].target.purpose.RunningAttemptStop?
    ensures SessionStep(db, e, db.stops[op].target.pair)
  {
    var stop := db.stops[op];
    var marked := db.(stops := db.stops[op := Settle(stop, o)], log := db.log + [OutcomeEvent(op, stop, o)]);
    TouchRuntimeFrame(marked, stop.target, o);
    assert SessionStep(marked, e, stop.target.pair);
  }

  /** Beside the rows, an outcome settles one stop and appends its event. */
  predicate OutcomeFrame(db: DB, e: DB, op: Id, o: Outcome) {
    && op in db.stops
    && e.stops == db.stops[op := Settle(db.stops[op], o)] && e.stopOrder == db.stopOrder
    && e.dispatches == db.dispatches && e.budgets == db.budgets && e.restores == db.restores
    && db.log + [OutcomeEvent(op, db.stops[op], o)] <= e.log
  }

  lemma OutcomeFramed(db: DB, e: DB, op: Id, o: Outcome)
    requires OutcomeStep(db, e, op, o)
    ensures OutcomeFrame(db, e, op, o) && OutcomeFits(db.stops[op], o)
  {
    var stop := db.stops[op];
    var marked := db.(stops := db.stops[op := Settle(stop, o)], log := db.log + [OutcomeEvent(op, stop, o)]);
    if stop.target.purpose.RunningAttemptStop? {
      CloseLiveFrame(marked, op, stop.target, o);
    } else {
      TouchRuntimeFrame(marked, stop.target, o);
    }
  }

  predicate SameOperations(db: DB, e: DB) {
    && e.stops == db.stops && e.stopOrder == db.stopOrder && e.dispatches == db.dispatches
    && e.budgets == db.budgets && e.restores == db.restores && db.log <= e.log
  }

  lemma CloseLiveFrame(db: DB, op: Id, t: StopTarget, o: Outcome)
    requires t.lineage.Some? && t.lineage.value.task in db.tasks && t.lineage.value.attempt in db.attempts
    requires t.pair in db.sessions
    ensures SameOperations(db, CloseLive(db, op, t, o))
  {
  }

  lemma TouchRuntimeFrame(db: DB, t: StopTarget, o: Outcome)
    requires t.pair in db.sessions
    ensures SameOperations(db, TouchRuntime(db, t, o)) && SessionStep(db, TouchRuntime(db, t, o), t.pair)
  {
    var e := TouchRuntime(db, t, o);
    assert e.sessions == db.sessions[t.pair := e.sessions[t.pair]];
  }

  /** The outcome settles the row with its proof in the log. */
  lemma OutcomeRow(db: DB, e: DB, op: Id, o: Outcome)
    requires OutcomeFrame(db, e, op, o) && OutcomeFits(db.stops[op], o) && StopRow(db.stops[op])
    ensures var row := Settle(db.stops[op], o);
      && StopUpdate(db.stops, e.stops, op, row) && StopRow(row)
      && e.stopOrder == db.stopOrder && db.log <= e.log
      && (ConfirmedRow(row) ==> ConfirmationRecorded(e.log, op, row))
  {
    assert (db.log + [OutcomeEvent(op, db.stops[op], o)])[|db.log|] in e.log;
  }

  lemma OutcomeStops(db: DB, e: DB, op: Id, o: Outcome)
    requires OutcomeStep(db, e, op, o) && StopInv(db)
    ensures StopInv(e)
  {
    OutcomeFramed(db, e, op, o);
    OutcomeRow(db, e, op, o);
    assert StopRefs(db.tasks, db.attempts, db.sessions, db.stops[op].target);
    if db.stops[op].target.purpose.RunningAttemptStop? {
      CloseLiveLocal(db, e, op, o);
      RowRefs(db, e, db.stops[op].target.lineage.value.attempt);
    } else {
      TouchRuntimeLocal(db, e, op, o);
      SessionRefs(db, e, db.stops[op].target.pair);
    }
    UpdateKeepsStops(db, e, op, Settle(db.stops[op], o));
  }

  lemma OutcomeKeeps(db: DB, e: DB, op: Id, o: Outcome)
    requires Inv(db) && OutcomeStep(db, e, op, o)
    ensures Inv(e)
  {
    if db.stops[op].target.purpose.RunningAttemptStop? {
      CloseLiveKeeps(db, e, op, o);
    } else {
      TouchRuntimeKeeps(db, e, op, o);
    }
  }

  lemma TouchRuntimeKeeps(db: DB, e: DB, op: Id, o: Outcome)
    requires Inv(db) && OutcomeStep(db, e, op, o) && !db.stops[op].target.purpose.RunningAttemptStop?
    ensures Inv(e)
  {
    OutcomeFramed(db, e, op, o);
    OutcomeStops(db, e, op, o);
    TouchRuntimeLocal(db, e, op, o);
    SessionKeepsInv(db, e, db.stops[op].target.pair);
  }

  lemma CloseLiveKeeps(db: DB, e: DB, op: Id, o: Outcome)
    requires Inv(db) && OutcomeStep(db, e, op, o) && db.stops[op].target.purpose.RunningAttemptStop?
    ensures Inv(e)
  {
    var a := db.stops[op].target.lineage.value.attempt;
    OutcomeFramed(db, e, op, o);
    OutcomeStops(db, e, op, o);
    assert StopRefs(db.tasks, db.attempts, db.sessions, db.stops[op].target);
    CloseLiveLocal(db, e, op, o);
    RowCore(db, e, a);
    RowDispatches(db, e, a);
  }

  /** The task of an in-flight live stop is owned by no other live stop. */
  lemma ClosedIsUnowned(db: DB, e: DB, op: Id, o: Outcome)
    requires OutcomeStep(db, e, op, o) && db.stops[op].target.purpose.RunningAttemptStop?
    requires NumbersUnique(db.attempts) && StopRows(db.tasks, db.attempts, db.sessions, db.stops) && StopsUnique(db.stops)
    requires LiveStopsHold(db.tasks, db.attempts, db.stops)
    ensures NoLiveStop(e.stops, db.stops[op].target.lineage.value.task)
  {
    var l := db.stops[op].target.lineage.value;
    forall k | k in e.stops && k != op && e.stops[k].target.purpose.RunningAttemptStop? && e.stops[k].resolution.InFlight? && e.stops[k].target.lineage.Some?
      ensures e.stops[k].target.lineage.value.task != l.task
    {
      var m := db.stops[k].target.lineage.value;
      assert LiveStopHolds(db.tasks, db.attempts, db.stops[k].target);
      assert m.attempt == l.attempt ==> LiveStop(db.stops, k, l.attempt) && LiveStop(db.stops, op, l.attempt);
    }
  }

  lemma OutcomeSaga(db: DB, e: DB, op: Id, o: Outcome)
    requires OutcomeStep(db, e, op, o) && SagaCore(db)
    requires NumbersUnique(db.attempts) && StopRows(db.tasks, db.attempts, db.sessions, db.stops) && StopsUnique(db.stops)
    requires DispatchRefs(db.tasks, db.attempts, db.dispatches)
    ensures SagaCore(e)
  {
    OutcomeFramed(db, e, op, o);
    assert StopRefs(db.tasks, db.attempts, db.sessions, db.stops[op].target);
    if db.stops[op].target.purpose.RunningAttemptStop? {
      var a := db.stops[op].target.lineage.value.attempt;
      CloseLiveLocal(db, e, op, o);
      ClosedIsUnowned(db, e, op, o);
      SettledHolds(db, e, op, o);
      RowSends(db, e, a);
      RowLiveStops(db, e, a);
    } else {
      TouchRuntimeLocal(db, e, op, o);
      SettledHolds(db, e, op, o);
    }
  }

  lemma SettledHolds(db: DB, e: DB, op: Id, o: Outcome)
    requires OutcomeFrame(db, e, op, o) && OutcomeFits(db.stops[op], o) && LiveStopsHold(db.tasks, db.attempts, db.stops)
    ensures LiveStopsHold(db.tasks, db.attempts, e.stops) && e.dispatches == db.dispatches
  {
  }
}
