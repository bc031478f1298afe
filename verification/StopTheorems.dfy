/** What the store guarantees about stop operations over whole runs. */
module StopTheorems {
  import opened Domain
  import opened Tables
  import opened DispatchTransactions
  import opened StopTransactions
  import opened Invariants
  import opened History
  import opened Steps
  import Runs

  // --- one pending stop, always owned ------------------------------------------------------

  /** A pending stop passes guardStopRestoreOwner, and it is the only one of its Pair. */
  lemma PendingStopIsOwnedAndUnique(states: seq<DB>, steps: seq<Step>, i: nat, op: Id)
    requires Run(states, steps) && i <= |steps|
    requires op in states[i].stops && PendingResolution(states[i].stops[op].resolution)
    ensures OwnerAdmits(states[i].restores, states[i].stops[op].target)
    ensures forall k | k in states[i].stops && states[i].stops[k].target.pair == states[i].stops[op].target.pair
              :: PendingResolution(states[i].stops[k].resolution) ==> k == op
  {
    hide Allowed, Effect, Inv;
    Runs.Always(states, steps, i);
    PendingStop1(states[i], op);
  }

  lemma PendingStop1(db: DB, op: Id)
    requires Inv(db) && op in db.stops && PendingResolution(db.stops[op].resolution)
    ensures OwnerAdmits(db.restores, db.stops[op].target)
    ensures forall k | k in db.stops && db.stops[k].target.pair == db.stops[op].target.pair
              :: PendingResolution(db.stops[k].resolution) ==> k == op
  {
    var pair := db.stops[op].target.pair;
    assert StopsUnique(db.stops) && StopOwners(db.stops, db.restores);
    forall k | k in db.stops && db.stops[k].target.pair == pair && PendingResolution(db.stops[k].resolution) ensures k == op {
      assert PendingStop(db.stops, k, pair) && PendingStop(db.stops, op, pair);
    }
  }

  // --- a stop is settled once ------------------------------------------------------------------

  /** What may have become of a row that was no longer in flight. */
  predicate SettledFrom(was: Stop, now: Stop) {
    || now == was
    || (now == was.(resolution := RiskAccepted, resolvedAt := now.resolvedAt)
        && was.resolution !in {InFlight, TerminationConfirmed, TargetAbsent, RiskAccepted})
  }

  /** A row that left IN_FLIGHT is frozen, except that one human decision may accept its risk. */
  lemma {:induction false} StopSettledOnce(states: seq<DB>, steps: seq<Step>, i: nat, j: nat, op: Id)
    requires Run(states, steps) && i <= j <= |steps|
    requires op in states[i].stops && !states[i].stops[op].resolution.InFlight?
    ensures op in states[j].stops && SettledFrom(states[i].stops[op], states[j].stops[op])
    decreases j - i
  {
    hide Allowed, Effect, LineagesKept;
    if i < j {
      assert StepAt(states, steps, j - 1);
      StopSettledOnce(states, steps, i, j - 1, op);
      StepHistory(states[j - 1], steps[j - 1]);
      assert StopForward(states[j - 1].stops[op], states[j].stops[op]);
    }
  }

  /** The confirmation deadline, once set by an accepted kill, is never moved. */
  lemma {:induction false} DeadlineKept(states: seq<DB>, steps: seq<Step>, i: nat, j: nat, op: Id)
    requires Run(states, steps) && i <= j <= |steps|
    requires op in states[i].stops
    ensures op in states[j].stops && states[j].stops[op].target == states[i].stops[op].target
    ensures states[i].stops[op].deadline.Some? ==> states[j].stops[op].deadline == states[i].stops[op].deadline
    decreases j - i
  {
    hide Allowed, Effect, LineagesKept;
    if i < j {
      assert StepAt(states, steps, j - 1);
      DeadlineKept(states, steps, i, j - 1, op);
      StepHistory(states[j - 1], steps[j - 1]);
      assert StopForward(states[j - 1].stops[op], states[j].stops[op]);
    }
  }

  /** Every row of every state is in the (stage, resolution) table; a confirmed termination
      was observed no earlier than the kill and strictly before its deadline. */
  lemma StopRowsAlways(states: seq<DB>, steps: seq<Step>, i: nat, op: Id)
    requires Run(states, steps) && i <= |steps| && op in states[i].stops
    ensures StopRow(states[i].stops[op])
    ensures ConfirmedRow(states[i].stops[op]) ==>
      var o := states[i].stops[op];
      o.callAt.Some? && o.confirmedAt.Some? && o.deadline.Some? && o.callAt.value <= o.confirmedAt.value < o.deadline.value
  {
    hide Allowed, Effect, Inv;
    Runs.Always(states, steps, i);
    StopRow1(states[i], op);
  }

  lemma StopRow1(db: DB, op: Id)
    requires Inv(db) && op in db.stops
    ensures StopRow(db.stops[op]) && StopRefs(db.tasks, db.attempts, db.sessions, db.stops[op].target)
  {
    assert StopRows(db.tasks, db.attempts, db.sessions, db.stops);
  }

  // --- positive evidence -------------------------------------------------------------------------

  predicate LineageClosed(db: DB, t: StopTarget) {
    t.lineage.Some? ==>
      var a := t.lineage.value.attempt;
      a in db.attempts && db.attempts[a].ended.Some? && db.attempts[a].quarantined
  }

  lemma EvidenceRow(db: DB, op: Id)
    requires Inv(db) && op in db.stops
    ensures ConfirmedRow(db.stops[op]) ==> ConfirmationRecorded(db.log, op, db.stops[op])
    ensures EvidenceLineage(db, db.stops[op].target) <==> LineageClosed(db, db.stops[op].target)
  {
    StopRow1(db, op);
    assert EvidenceLogged(db.stops, db.log);
  }

  /** The audit join and the timestamp comparisons of positiveD11StopEvidence never filter a
      row out: a confirmed stop is evidence exactly when its lineage, if any, is closed and
      still quarantined. */
  lemma EvidenceExact(db: DB, pair: Id, session: Id, gen: Id, restore: Option<Id>, attempt: Option<Id>, stop: Option<Id>)
    requires Inv(db)
    ensures PositiveEvidence(db, pair, session, gen, restore, attempt, stop) <==>
      exists op | op in db.stops ::
        && EvidenceFilter(op, db.stops[op].target, pair, session, gen, restore, attempt, stop)
        && ConfirmedRow(db.stops[op])
        && LineageClosed(db, db.stops[op].target)
  {
    hide Inv, EvidenceFilter, ConfirmationRecorded, EvidenceLineage, LineageClosed;
    forall op | op in db.stops
      ensures ConfirmedRow(db.stops[op]) ==> ConfirmationRecorded(db.log, op, db.stops[op])
      ensures EvidenceLineage(db, db.stops[op].target) <==> LineageClosed(db, db.stops[op].target)
    {
      EvidenceRow(db, op);
    }
  }

  // --- containment is always enabled ------------------------------------------------------------------

  /** RecordUnknownDelivery commits exactly when the current attempt of a DISPATCHED task has
      an unresolved send intent: none of its other checks and CAS updates can fail. */
  lemma UnknownDeliveryEnabled(db: DB, op: Id)
    requires Inv(db)
    ensures UnknownDeliveryAdmits(db, op) <==>
      && op in db.dispatches
      && var d := db.dispatches[op];
      && d.stage.SendRequested? && !d.unknown
      && IsCurrent(db.tasks, db.attempts, d.bound.attempt)
      && db.tasks[db.attempts[d.bound.attempt].lineage.task].state.Dispatched?
  {
    if op in db.dispatches && IsCurrent(db.tasks, db.attempts, db.dispatches[op].bound.attempt) {
      CurrentAttempt(db, op);
    }
  }

  /** A current attempt of an open state is open, audited and on its Pair's session. */
  lemma CurrentAttempt(db: DB, op: Id)
    requires Inv(db) && op in db.dispatches && IsCurrent(db.tasks, db.attempts, db.dispatches[op].bound.attempt)
    ensures var b := db.dispatches[op].bound;
      && AuditLineage(db, b.pair, b.task, db.attempts[b.attempt].lineage.contract, b.attempt)
      && (OpenState(db.tasks[b.task].state) ==> CurrentOpen(db, b.task, b.attempt) && SessionIs(db.sessions, b.pair, b.session, b.gen))
  {
    assert DispatchRefs(db.tasks, db.attempts, db.dispatches) && AttemptRefs(db.tasks, db.contracts, db.attempts);
    assert CurrentIsOpen(db.tasks, db.attempts) && SessionInv(db.tasks, db.attempts, db.sessions);
  }

  /** closeLiveStopTx succeeds for every outcome CommitStopOutcome admits for the row. */
  lemma LiveStopCloses(db: DB, op: Id, o: Outcome)
    requires SagaInv(db) && op in db.stops && db.stops[op].target.purpose.RunningAttemptStop?
    ensures StopOutcomeAdmits(db, op, o) <==> OutcomeFits(db.stops[op], o)
  {
    if OutcomeFits(db.stops[op], o) {
      LiveStopAdmits(db, op);
      PendingStop1(db, op);
    }
  }

  lemma LiveStopAdmits(db: DB, op: Id)
    requires SagaInv(db) && op in db.stops && db.stops[op].target.purpose.RunningAttemptStop? && db.stops[op].resolution.InFlight?
    ensures CloseLiveAdmits(db, db.stops[op].target) && StopAudit(db, db.stops[op].target)
  {
    StopRow1(db, op);
    assert LiveStopHolds(db.tasks, db.attempts, db.stops[op].target);
    assert SessionInv(db.tasks, db.attempts, db.sessions) && AttemptRefs(db.tasks, db.contracts, db.attempts);
  }

  // --- the same, in every run -------------------------------------------------------------------------

  lemma EvidenceExactAlways(states: seq<DB>, steps: seq<Step>, i: nat, pair: Id, session: Id, gen: Id, restore: Option<Id>, attempt: Option<Id>, stop: Option<Id>)
    requires Run(states, steps) && i <= |steps|
    ensures PositiveEvidence(states[i], pair, session, gen, restore, attempt, stop) <==>
      exists op | op in states[i].stops ::
        && EvidenceFilter(op, states[i].stops[op].target, pair, session, gen, restore, attempt, stop)
        && ConfirmedRow(states[i].stops[op])
        && LineageClosed(states[i], states[i].stops[op].target)
  {
    hide Inv, Allowed, Effect, PositiveEvidence, EvidenceFilter, LineageClosed;
    Runs.Always(states, steps, i);
    EvidenceExact(states[i], pair, session, gen, restore, attempt, stop);
  }

  lemma UnknownDeliveryAlwaysEnabled(states: seq<DB>, steps: seq<Step>, i: nat, op: Id)
    requires Run(states, steps) && i <= |steps|
    ensures UnknownDeliveryAdmits(states[i], op) <==>
      && op in states[i].dispatches
      && var d := states[i].dispatches[op];
      && d.stage.SendRequested? && !d.unknown
      && IsCurrent(states[i].tasks, states[i].attempts, d.bound.attempt)
      && states[i].tasks[states[i].attempts[d.bound.attempt].lineage.task].state.Dispatched?
  {
    hide Inv, Allowed, Effect, UnknownDeliveryAdmits;
    Runs.Always(states, steps, i);
    UnknownDeliveryEnabled(states[i], op);
  }

  lemma LiveStopAlwaysCloses(states: seq<DB>, steps: seq<Step>, i: nat, op: Id, o: Outcome)
    requires SagaRun(states, steps) && i <= |steps|
    requires op in states[i].stops && states[i].stops[op].target.purpose.RunningAttemptStop?
    ensures StopOutcomeAdmits(states[i], op, o) <==> OutcomeFits(states[i].stops[op], o)
  {
    hide SagaInv, Allowed, Effect, StopOutcomeAdmits, OutcomeFits;
    Runs.SagaAlways(states, steps, i);
    LiveStopCloses(states[i], op, o);
  }
}
