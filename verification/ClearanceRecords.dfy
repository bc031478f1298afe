/** The clearance records that closeLiveStopTx writes and priorLineageClearanceTx reads. */
module ClearanceRecords {
  import opened Domain
  import opened Tables
  import opened StopTransactions
  import opened ClearanceTransactions

  /** A record of the clearance of a lineage by a stop, with its generation under that key. */
  predicate RecordedUnder(log: seq<Event>, key: GenerationKey, stop: Id, pair: Id, ref: LineageRef) {
    exists e | e in log :: e.LineageClearedEvent? && e.pair == pair && e.ref == ref && e.stop == stop && e.key == key
  }

  /** A confirmed live stop records the clearance of its attempt, under the key of its target. */
  lemma LiveClearanceRecorded(db: DB, op: Id, o: Outcome)
    requires StopOutcomeAdmits(db, op, o) && Physical(o) && db.stops[op].target.purpose.RunningAttemptStop?
    ensures var t := db.stops[op].target;
      RecordedUnder(StopOutcomeCommit(db, op, o).log, TargetGeneration, op, t.pair, LineageRef(Some(t.lineage.value.attempt), t.session, t.gen))
  {
    hide StopAudit, OwnerAdmits, OutcomeFits, OtherRisk, OutcomeEvent;
    var t := db.stops[op].target;
    var log := StopOutcomeCommit(db, op, o).log;
    assert log[|db.log| + 2] == LiveClearedEvent(op, t);
  }

  /** A later clearance reads the other key, so settling a stop, physically or not, leaves no
      record that it finds. */
  lemma OutcomeLeavesNoClearance(db: DB, op: Id, o: Outcome, stop: Id, pair: Id, ref: LineageRef)
    requires StopOutcomeAdmits(db, op, o)
    ensures PriorClearance(StopOutcomeCommit(db, op, o).log, stop, pair, ref) <==> PriorClearance(db.log, stop, pair, ref)
  {
    var e := StopOutcomeCommit(db, op, o);
    assert db.log <= e.log && forall i | |db.log| <= i < |e.log| :: !(e.log[i].LineageClearedEvent? && e.log[i].key.TerminalGeneration?) by {
      hide StopAudit, OwnerAdmits, OutcomeFits, PriorClearance, QuarantinedAttemptOn, OtherRisk;
    }
    PriorGrows(db.log, e.log, stop, pair, ref);
  }

  lemma PriorGrows(log: seq<Event>, more: seq<Event>, stop: Id, pair: Id, ref: LineageRef)
    requires log <= more && forall i | |log| <= i < |more| :: !(more[i].LineageClearedEvent? && more[i].stop == stop && more[i].key.TerminalGeneration?)
    ensures PriorClearance(more, stop, pair, ref) <==> PriorClearance(log, stop, pair, ref)
  {
    if e :| e in more && e.LineageClearedEvent? && e.pair == pair && e.ref == ref && e.stop == stop && e.key.TerminalGeneration? {
      var i :| 0 <= i < |more| && more[i] == e;
      assert more[i] == log[i];
    }
  }

  lemma AcceptedSame(log: seq<Event>, cleared: Event, stop: Id, pair: Id, principal: Id, ref: LineageRef, riskClass: RiskClass, restore: Option<Id>)
    requires cleared.LineageClearedEvent?
    ensures AcceptedLineage(log + [cleared], stop, pair, principal, ref, riskClass, restore)
            <==> AcceptedLineage(log, stop, pair, principal, ref, riskClass, restore)
  {
    var more := log + [cleared];
    forall i ensures OnlyAcceptance(more, i, stop, pair, principal, ref, riskClass, restore) <==> OnlyAcceptance(log, i, stop, pair, principal, ref, riskClass, restore) {
      OnlySame(log, cleared, i, stop, pair, principal, ref, riskClass, restore);
    }
    hide OnlyAcceptance;
    forall i | OnlyAcceptance(more, i, stop, pair, principal, ref, riskClass, restore) ensures 0 <= i < |log| {
      OnlyInside(log, cleared, i, stop, pair, principal, ref, riskClass, restore);
    }
  }

  lemma OnlySame(log: seq<Event>, cleared: Event, i: int, stop: Id, pair: Id, principal: Id, ref: LineageRef, riskClass: RiskClass, restore: Option<Id>)
    requires cleared.LineageClearedEvent?
    ensures OnlyAcceptance(log + [cleared], i, stop, pair, principal, ref, riskClass, restore)
            <==> OnlyAcceptance(log, i, stop, pair, principal, ref, riskClass, restore)
  {
    var more := log + [cleared];
    assert forall j | 0 <= j < |more| :: more[j] == if j < |log| then log[j] else cleared;
    assert forall j | 0 <= j < |log| :: log[j] == more[j];
  }

  lemma OnlyInside(log: seq<Event>, cleared: Event, i: int, stop: Id, pair: Id, principal: Id, ref: LineageRef, riskClass: RiskClass, restore: Option<Id>)
    requires cleared.LineageClearedEvent? && OnlyAcceptance(log + [cleared], i, stop, pair, principal, ref, riskClass, restore)
    ensures 0 <= i < |log|
  {}

  lemma StopSame(db: DB, e: DB, rq: Request, cleared: Event, op: Id)
    requires cleared.LineageClearedEvent? && e == db.(log := db.log + [cleared]) && op in db.stops
    requires cleared.stop == op ==> db.stops[op].resolution.TerminationConfirmed?
    ensures StopReconciled(e, rq, op) <==> StopReconciled(db, rq, op)
  {
    assert ExpectedAttempts(e, rq.pair) == ExpectedAttempts(db, rq.pair);
    var o := db.stops[op];
    if !o.resolution.TerminationConfirmed? {
      ReconciledSame(db, e, rq, cleared, op, rq.session.ref, ResolutionClass(o.resolution), o.target.restore);
      if o.target.lineage.Some? && o.target.lineage.value.attempt in db.attempts {
        ReconciledSame(db, e, rq, cleared, op, AttemptRef(db, o.target.lineage.value.attempt), ResolutionClass(o.resolution), o.target.restore);
      }
    }
  }

  lemma ReconciledSame(db: DB, e: DB, rq: Request, cleared: Event, op: Id, ref: LineageRef, riskClass: RiskClass, restore: Option<Id>)
    requires cleared.LineageClearedEvent? && e == db.(log := db.log + [cleared]) && cleared.stop != op
    ensures Reconciled(e, rq, op, ref, riskClass, restore) <==> Reconciled(db, rq, op, ref, riskClass, restore)
  {
    PriorGrows(db.log, e.log, op, rq.pair, ref);
    AcceptedSame(db.log, cleared, op, rq.pair, rq.principal, ref, riskClass, restore);
  }

  lemma CurrentSame(db: DB, e: DB, pair: Id, item: Item)
    requires e == db.(log := e.log)
    ensures EvidenceCurrent(e, pair, item) <==> EvidenceCurrent(db, pair, item)
  {
    assert forall op :: Names(e, pair, item.ref, op) == Names(db, pair, item.ref, op);
    assert forall i :: LatestStop(e, pair, item.ref, i) == LatestStop(db, pair, item.ref, i);
  }

  lemma BasisSame(db: DB, e: DB, rq: Request, cleared: Event, item: Item)
    requires cleared.LineageClearedEvent? && e == db.(log := db.log + [cleared])
    ensures BasisVerified(e, rq, item) <==> BasisVerified(db, rq, item)
  {
    if item.stop.Some? && item.stop.value in db.stops {
      var op := item.stop.value;
      AcceptedSame(db.log, cleared, op, rq.pair, rq.principal, item.ref, ClassB, db.stops[op].target.restore);
      AcceptedSame(db.log, cleared, op, rq.pair, rq.principal, item.ref, ClassC, db.stops[op].target.restore);
      assert forall k | k in db.stops ::
          ConfirmationRecorded(e.log, k, db.stops[k]) == ConfirmationRecorded(db.log, k, db.stops[k])
          && EvidenceLineage(e, db.stops[k].target) == EvidenceLineage(db, db.stops[k].target);
      EvidenceSame(db, e, rq.pair, item.ref.session, item.ref.gen, item.ref.attempt, Some(op));
    }
  }

  lemma EvidenceSame(db: DB, e: DB, pair: Id, session: Id, gen: Id, attempt: Option<Id>, stop: Option<Id>)
    requires e == db.(log := e.log)
    requires forall k | k in db.stops ::
          ConfirmationRecorded(e.log, k, db.stops[k]) == ConfirmationRecorded(db.log, k, db.stops[k])
          && EvidenceLineage(e, db.stops[k].target) == EvidenceLineage(db, db.stops[k].target)
    ensures PositiveEvidence(e, pair, session, gen, None, attempt, stop) <==> PositiveEvidence(db, pair, session, gen, None, attempt, stop)
  {}

  lemma ItemsSame(db: DB, e: DB, rq: Request, cleared: Event)
    requires cleared.LineageClearedEvent? && e == db.(log := db.log + [cleared])
    ensures ItemsAdmit(e, rq) <==> ItemsAdmit(db, rq)
  {
    assert ExpectedAttempts(e, rq.pair) == ExpectedAttempts(db, rq.pair);
    forall i | 0 <= i < |rq.attempts| ensures BasisVerified(e, rq, rq.attempts[i]) <==> BasisVerified(db, rq, rq.attempts[i]) {
      BasisSame(db, e, rq, cleared, rq.attempts[i]);
    }
  }

  /** It makes no difference: with the record of a confirmed stop added, exactly the same
      clearances are admitted. */
  lemma ConfirmedNeedsNoClearance(db: DB, rq: Request, cleared: Event)
    requires cleared.LineageClearedEvent? && cleared.stop in db.stops && db.stops[cleared.stop].resolution.TerminationConfirmed?
    ensures var e := db.(log := db.log + [cleared]);
      && (PairStopsReconciled(e, rq) <==> PairStopsReconciled(db, rq))
      && (ClearAdmits(e, rq) <==> ClearAdmits(db, rq))
  {
    hide StopReconciled, EvidenceCurrent, ItemsAdmit, BasisVerified;
    var e := db.(log := db.log + [cleared]);
    forall op | op in db.stops ensures StopReconciled(e, rq, op) <==> StopReconciled(db, rq, op) { StopSame(db, e, rq, cleared, op); }
    CurrentSame(db, e, rq.pair, rq.session);
    forall i | 0 <= i < |rq.attempts| ensures EvidenceCurrent(e, rq.pair, rq.attempts[i]) <==> EvidenceCurrent(db, rq.pair, rq.attempts[i]) {
      CurrentSame(db, e, rq.pair, rq.attempts[i]);
    }
    ItemsSame(db, e, rq, cleared);
    BasisSame(db, e, rq, cleared, rq.session);
    assert ExpectedAttempts(e, rq.pair) == ExpectedAttempts(db, rq.pair);
  }
}
