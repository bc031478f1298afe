/** The stop transactions as the store runs them (internal/store/stop_transactions.go). */
module StopStore {
  import opened Domain
  import opened Tables
  import opened StopTransactions

  method ReserveStopOperation(s: Store, op: Id, t: StopTarget) returns (err: Error)
    modifies s
    ensures err.Nil? <==> ReserveStopAdmits(old(s.db), op, t)
    ensures s.db == if ReserveStopAdmits(old(s.db), op, t) then ReserveStopCommit(old(s.db), op, t) else old(s.db)
  {
    if t.restore.Some? { return LineageMismatch; }
    if t.timeout && !t.purpose.RunningAttemptStop? { return StateConflict; }
    var tx := s.db;
    if !SessionIs(tx.sessions, t.pair, t.session, t.gen) { return LineageMismatch; }
    if PendingStopOn(tx.stops, t.pair) { return StateConflict; }
    match t.purpose {
      case RunningAttemptStop =>
        if t.lineage.None? || !LineageMatches(tx, t) { return LineageMismatch; }
        var l := t.lineage.value;
        if !CurrentOpen(tx, l.task, l.attempt) { return LineageMismatch; }
        if !tx.tasks[l.task].state.Running? { return StateConflict; }
        if t.timeout && !TimeoutDue(tx, t) { return StateConflict; }
        if LiveStopFor(tx.stops, l.attempt) { return StateConflict; }
      case QuarantineCleanup =>
        if t.lineage.None? || !LineageMatches(tx, t) { return LineageMismatch; }
        var l := t.lineage.value;
        if tx.attempts[l.attempt].ended.None? || !tx.attempts[l.attempt].quarantined { return LineageMismatch; }
        if !tx.tasks[l.task].state.Failed? && !tx.tasks[l.task].state.HumanRequired? { return LineageMismatch; }
      case PairMaintenance =>
        if t.lineage.Some? { return LineageMismatch; }
    }
    // createStopOperationTx
    if UnresolvedRestore(tx.restores, t.pair) || UnresolvedProvision(tx.provisions, t.pair) { return Quarantined; }
    if op in tx.stops { return StateConflict; }
    tx := tx.(stops := tx.stops[op := NewStop(t)], stopOrder := tx.stopOrder + [op]);
    tx := tx.(sessions := WithQuarantine(tx.sessions, t.pair));
    if t.purpose.RunningAttemptStop? {
      var a := t.lineage.value.attempt;
      tx := tx.(attempts := tx.attempts[a := tx.attempts[a].(quarantined := true)]);
    }
    if !StopAudit(s.db, t) { return LineageMismatch; }
    tx := tx.(log := tx.log + [Note(StopRequestedNote, op)]);
    s.db := tx;
    return Nil;
  }

  /** A read-only transaction that commits nothing. */
  method ValidateTimeoutEffectOwner(s: Store, op: Id) returns (err: Error)
    ensures err.Nil? <==> TimeoutEffectOwner(s.db, op)
  {
    var tx := s.db;
    if op !in tx.stops { return NotFound; }
    var o := tx.stops[op];
    if !o.target.timeout || !o.target.purpose.RunningAttemptStop? || !o.stage.StopRequested? || !o.resolution.InFlight?
       || o.target.lineage.None? { return StateConflict; }
    var t, l := o.target, o.target.lineage.value;
    // the joined current execution
    if l.task !in tx.tasks || l.attempt !in tx.attempts || t.pair !in tx.sessions { return Quarantined; }
    var task, a, w := tx.tasks[l.task], tx.attempts[l.attempt], tx.sessions[t.pair];
    if task.pair != t.pair || !task.state.Running? || a.lineage.task != l.task || a.lineage.number != task.current { return Quarantined; }
    if a.lineage.contract != l.contract || a.lineage.session != t.session || a.lineage.gen != t.gen { return Quarantined; }
    if a.ended.Some? || !a.quarantined || (a.disposition.Some? && !a.disposition.value.AoWaitingInputObserved?) { return Quarantined; }
    if w.session != t.session || w.gen != t.gen || !w.quarantined { return Quarantined; }
    if !exists d | d in tx.dispatches ::
         tx.dispatches[d].bound.attempt == l.attempt && tx.dispatches[d].stage.SendConfirmed? && !tx.dispatches[d].unknown { return Quarantined; }
    // any other risk on the Pair
    if exists k | k in tx.stops :: k != op && tx.stops[k].target.pair == t.pair && PendingResolution(tx.stops[k].resolution) { return Quarantined; }
    if exists r | r in tx.restores :: tx.restores[r].tuple.pair == t.pair && !tx.restores[r].resolution.RestoreResolved? {
      assert UnresolvedRestore(tx.restores, t.pair) by {
        var r :| r in tx.restores && tx.restores[r].tuple.pair == t.pair && !tx.restores[r].resolution.RestoreResolved?;
        assert Unresolved(tx.restores, r, t.pair);
      }
      return Quarantined;
    }
    if exists p | p in tx.provisions ::
         tx.provisions[p].pair == t.pair && (tx.provisions[p].stage.ProvisionRequested? || tx.provisions[p].stage.ProvisionFailed?) { return Quarantined; }
    if exists d | d in tx.dispatches :: tx.dispatches[d].bound.pair == t.pair && tx.dispatches[d].unknown { return Quarantined; }
    if exists k | k in tx.attempts ::
         k != l.attempt && tx.attempts[k].quarantined && tx.attempts[k].lineage.task in tx.tasks && tx.tasks[tx.attempts[k].lineage.task].pair == t.pair {
      return Quarantined;
    }
    return Nil;
  }

  /** guardStopRestoreOwner reads the one unresolved restore of the Pair. */
  method GuardStopRestoreOwner(restores: map<Id, Restore>, t: StopTarget) returns (err: Error)
    requires forall r, q | Unresolved(restores, r, t.pair) && Unresolved(restores, q, t.pair) :: r == q
    ensures err.Nil? <==> OwnerAdmits(restores, t)
  {
    if r :| r in restores && Unresolved(restores, r, t.pair) {
      assert UnresolvedRestore(restores, t.pair);
      if t.restore != Some(r) || !restores[r].resolution.CleanupClaimed? { return Quarantined; }
      return Nil;
    } else {
      if t.restore.Some? { return StateConflict; }
      return Nil;
    }
  }

  method CommitStopCallAccepted(s: Store, op: Id, callAt: Time, deadline: Time) returns (err: Error)
    modifies s
    ensures err.Nil? <==> CallAcceptedAdmits(old(s.db), op, callAt, deadline)
    ensures s.db == if CallAcceptedAdmits(old(s.db), op, callAt, deadline) then CallAcceptedCommit(old(s.db), op, callAt, deadline) else old(s.db)
  {
    if callAt >= deadline { return StateConflict; }
    var tx := s.db;
    if op !in tx.stops { return NotFound; }
    var o := tx.stops[op];
    if !OwnerAdmits(tx.restores, o.target) { return Quarantined; }
    if !o.stage.StopRequested? || !o.resolution.InFlight? { return StateConflict; }
    if o.callAt.Some? || o.deadline.Some? { return StateConflict; }
    tx := tx.(stops := tx.stops[op := o.(stage := StopCallSucceeded, callAt := Some(callAt), deadline := Some(deadline))]);
    if !StopAudit(tx, o.target) { return LineageMismatch; }
    tx := tx.(log := tx.log + [Note(StopCallSucceededNote, op)]);
    s.db := tx;
    return Nil;
  }

  /** closeLiveStopTx on the working copy of CommitStopOutcome. */
  method CloseLiveStopTx(db: DB, op: Id, t: StopTarget, o: Outcome) returns (err: Error, tx: DB)
    ensures err.Nil? <==> CloseLiveAdmits(db, t) && AuditLineage(db, t.pair, t.lineage.value.task, t.lineage.value.contract, t.lineage.value.attempt)
    ensures err.Nil? ==> tx == CloseLive(db, op, t, o)
  {
    hide OtherRisk, StopDisposition, LiveClearedEvent, AuditLineage;
    tx := db;
    if t.lineage.None? { return LineageMismatch, tx; }
    var l := t.lineage.value;
    if !CurrentOpen(tx, l.task, l.attempt) { return LineageMismatch, tx; }
    if tx.tasks[l.task].pair != t.pair || tx.attempts[l.attempt].lineage.contract != l.contract { return LineageMismatch, tx; }
    if tx.attempts[l.attempt].lineage.session != t.session || tx.attempts[l.attempt].lineage.gen != t.gen { return LineageMismatch, tx; }
    var physical := Physical(o);
    if !tx.tasks[l.task].state.Running? { return StateConflict, tx; }
    tx := tx.(tasks := tx.tasks[l.task := tx.tasks[l.task].(state := Failed)]);
    tx := tx.(attempts := tx.attempts[l.attempt :=
      tx.attempts[l.attempt].(ended := Some(o.at), disposition := Some(StopDisposition(o)), quarantined := !physical)]);
    var otherRisk := OtherRisk(tx, t.pair, l.attempt);
    OtherRiskUnmoved(db, tx, t.pair, l.attempt);
    if !SessionIs(tx.sessions, t.pair, t.session, t.gen) { return StateConflict, tx; }
    var w := tx.sessions[t.pair];
    tx := tx.(sessions := tx.sessions[t.pair :=
      w.(status := if physical then SessionTerminated else w.status, quarantined := !(physical && !otherRisk))]);
    if !AuditLineage(db, t.pair, l.task, l.contract, l.attempt) { return LineageMismatch, tx; }
    tx := tx.(log := tx.log + [TaskTransitionEvent(t.pair, l.task, l.attempt, Running, Failed, None)]);
    if physical {
      tx := tx.(log := tx.log + [LiveClearedEvent(op, t)]);
      if !otherRisk { tx := tx.(log := tx.log + [LiveClearedEvent(op, t)]); }
    }
    return Nil, tx;
  }

  /** Closing one attempt does not change what else is at risk on its Pair. */
  lemma OtherRiskUnmoved(db: DB, tx: DB, pair: Id, attempt: Id)
    requires attempt in db.attempts && attempt in tx.attempts
    requires tx.attempts == db.attempts[attempt := tx.attempts[attempt]]
    requires tx.restores == db.restores && tx.dispatches == db.dispatches
    requires db.tasks.Keys == tx.tasks.Keys && forall t | t in db.tasks :: tx.tasks[t].pair == db.tasks[t].pair
    ensures OtherRisk(tx, pair, attempt) <==> OtherRisk(db, pair, attempt)
  {
    forall a | a != attempt ensures OnPair(tx.tasks, tx.attempts, a, pair) <==> OnPair(db.tasks, db.attempts, a, pair) {}
  }

  method CommitStopOutcome(s: Store, op: Id, o: Outcome) returns (err: Error)
    modifies s
    ensures err.Nil? <==> StopOutcomeAdmits(old(s.db), op, o)
    ensures s.db == if StopOutcomeAdmits(old(s.db), op, o) then StopOutcomeCommit(old(s.db), op, o) else old(s.db)
  {
    var tx := s.db;
    if op !in tx.stops { return NotFound; }
    var stop := tx.stops[op];
    if !OwnerAdmits(tx.restores, stop.target) { return Quarantined; }
    if stop.stage != o.expected || !stop.resolution.InFlight? || !ValidStopTransition(o.expected, o.stage) { return StateConflict; }
    if !OutcomeProved(stop, o) { return StateConflict; }
    if !ValidStopOutcome(o) { return Invalid; }
    tx := tx.(stops := tx.stops[op := Settle(stop, o)]);
    if !StopAudit(tx, stop.target) { return LineageMismatch; }
    tx := tx.(log := tx.log + [OutcomeEvent(op, stop, o)]);
    if stop.target.purpose.RunningAttemptStop? {
      err, tx := CloseLiveStopTx(tx, op, stop.target, o);
      if !err.Nil? { return; }
    } else {
      if stop.target.pair !in tx.sessions || tx.sessions[stop.target.pair].session != stop.target.session { return NotFound; }
      var w := tx.sessions[stop.target.pair];
      if w.gen == stop.target.gen {
        tx := tx.(sessions := tx.sessions[stop.target.pair :=
          w.(status := if Physical(o) then SessionTerminated else w.status, quarantined := true)]);
      } else if stop.target.restore.None? || !stop.target.purpose.QuarantineCleanup? {
        return LineageMismatch;
      }
    }
    s.db := tx;
    return Nil;
  }

  method ClassifyAbandonedStopAlive(s: Store, op: Id, session: Id, gen: Id, at: Time) returns (err: Error)
    modifies s
    ensures err.Nil? <==> AbandonedReplayed(old(s.db), op, session, gen) || AbandonedAdmits(old(s.db), op, session, gen)
    ensures s.db == if AbandonedAdmits(old(s.db), op, session, gen) then AbandonedCommit(old(s.db), op, at) else old(s.db)
  {
    var tx := s.db;
    if op !in tx.stops { return NotFound; }
    var o := tx.stops[op];
    if o.target.session != session || o.target.gen != gen { return StateConflict; }
    if o.stage.StopRequested? && o.resolution.ReissueRequiresHuman? { return Nil; }
    if !o.stage.StopRequested? || !o.resolution.InFlight? { return StateConflict; }
    if !OwnerAdmits(tx.restores, o.target) { return Quarantined; }
    tx := tx.(stops := tx.stops[op := o.(resolution := ReissueRequiresHuman, resolvedAt := Some(at))]);
    if !StopAudit(tx, o.target) { return LineageMismatch; }
    tx := tx.(log := tx.log + [Note(StopOutcomeNote, op)]);
    s.db := tx;
    return Nil;
  }

  // --- AcceptStopAdministrativeRisk ----------------------------------------------------------

  /** stopAcceptanceEventsTx: the acceptances of a stop by attempt; None on a duplicate. */
  function PriorEvents(log: seq<Event>, stop: Id): Option<map<Option<Id>, Event>> {
    if log == [] then Some(map[])
    else
      var rest := PriorEvents(log[..|log| - 1], stop);
      var e := log[|log| - 1];
      if rest.None? || !e.RiskAcceptedEvent? || e.stop != stop then rest
      else if e.ref.attempt in rest.value then None
      else Some(rest.value[e.ref.attempt := e])
  }

  predicate Accepts(e: Event, stop: Id) { e.RiskAcceptedEvent? && e.stop == stop }

  predicate SameLineage(log: seq<Event>, stop: Id, i: int, j: int) {
    0 <= i < j < |log| && Accepts(log[i], stop) && Accepts(log[j], stop) && log[i].ref.attempt == log[j].ref.attempt
  }

  /** Two acceptances of the stop name one lineage. */
  predicate Duplicated(log: seq<Event>, stop: Id) { exists i, j | 0 <= i < j < |log| :: SameLineage(log, stop, i, j) }

  /** The map holds exactly the acceptances of the stop in the log, by the attempt they name. */
  ghost predicate AcceptancesOf(log: seq<Event>, stop: Id, prior: map<Option<Id>, Event>) {
    && (forall e | e in log && Accepts(e, stop) :: e.ref.attempt in prior && prior[e.ref.attempt] == e)
    && forall a | a in prior :: prior[a] in log && Accepts(prior[a], stop) && prior[a].ref.attempt == a
  }

  /** An acceptance of the stop for that lineage. */
  predicate Accepted(log: seq<Event>, stop: Id, attempt: Option<Id>) {
    exists i | 0 <= i < |log| :: Accepts(log[i], stop) && log[i].ref.attempt == attempt
  }

  lemma DuplicatedGrows(rest: seq<Event>, stop: Id, e: Event)
    ensures Duplicated(rest + [e], stop) <==> Duplicated(rest, stop) || (Accepts(e, stop) && Accepted(rest, stop, e.ref.attempt))
  {
    var log := rest + [e];
    assert forall i | 0 <= i < |rest| :: log[i] == rest[i];
    if Duplicated(log, stop) {
      var i, j :| 0 <= i < j < |log| && SameLineage(log, stop, i, j);
      if j < |rest| { assert SameLineage(rest, stop, i, j); }
    }
    if Duplicated(rest, stop) {
      var i, j :| 0 <= i < j < |rest| && SameLineage(rest, stop, i, j);
      assert SameLineage(log, stop, i, j);
    }
    if Accepts(e, stop) && Accepted(rest, stop, e.ref.attempt) {
      var i :| 0 <= i < |rest| && Accepts(rest[i], stop) && rest[i].ref.attempt == e.ref.attempt;
      assert SameLineage(log, stop, i, |rest|);
    }
  }

  lemma AcceptancesGrow(rest: seq<Event>, stop: Id, prior: map<Option<Id>, Event>, e: Event)
    requires AcceptancesOf(rest, stop, prior)
    ensures forall attempt :: attempt in prior <==> Accepted(rest, stop, attempt)
    ensures !Accepts(e, stop) ==> AcceptancesOf(rest + [e], stop, prior)
    ensures Accepts(e, stop) && e.ref.attempt !in prior ==> AcceptancesOf(rest + [e], stop, prior[e.ref.attempt := e])
  {
    forall attempt ensures attempt in prior <==> Accepted(rest, stop, attempt) {
      if attempt in prior {
        var i :| 0 <= i < |rest| && rest[i] == prior[attempt];
      }
      if i :| 0 <= i < |rest| && Accepts(rest[i], stop) && rest[i].ref.attempt == attempt {
        assert rest[i] in rest;
      }
    }
  }

  lemma {:induction false} PriorEventsAre(log: seq<Event>, stop: Id)
    ensures PriorEvents(log, stop).None? <==> Duplicated(log, stop)
    ensures PriorEvents(log, stop).Some? ==> AcceptancesOf(log, stop, PriorEvents(log, stop).value)
  {
    if log != [] {
      hide Duplicated, AcceptancesOf, Accepted;
      var rest, e := log[..|log| - 1], log[|log| - 1];
      assert rest + [e] == log;
      PriorEventsAre(rest, stop);
      DuplicatedGrows(rest, stop, e);
      if PriorEvents(rest, stop).Some? { AcceptancesGrow(rest, stop, PriorEvents(rest, stop).value, e); }
    }
  }

  lemma PriorEventsEmpty(log: seq<Event>, stop: Id)
    ensures PriorEvents(log, stop) == Some(map[]) <==> !PriorAcceptance(log, stop)
  {
    PriorEventsAre(log, stop);
    if !PriorAcceptance(log, stop) && PriorEvents(log, stop).Some? {
      assert PriorEvents(log, stop).value == map[];
    }
  }

  method StopAcceptanceEvents(log: seq<Event>, stop: Id) returns (prior: Option<map<Option<Id>, Event>>)
    ensures prior == PriorEvents(log, stop)
    ensures prior.None? <==> Duplicated(log, stop)
    ensures prior.Some? ==> AcceptancesOf(log, stop, prior.value)
  {
    PriorEventsAre(log, stop);
    var result: map<Option<Id>, Event> := map[];
    for i := 0 to |log|
      invariant PriorEvents(log[..i], stop) == Some(result)
      invariant PriorEvents(log[..i], stop).None? ==> PriorEvents(log, stop).None?
    {
      assert log[..i + 1][..i] == log[..i];
      var e := log[i];
      if e.RiskAcceptedEvent? && e.stop == stop {
        if e.ref.attempt in result {
          DuplicateStays(log, stop, i + 1);
          return None;
        }
        result := result[e.ref.attempt := e];
      }
    }
    assert log[..|log|] == log;
    return Some(result);
  }

  lemma {:induction false} DuplicateStays(log: seq<Event>, stop: Id, i: nat)
    requires i <= |log| && PriorEvents(log[..i], stop).None?
    ensures PriorEvents(log, stop).None?
    decreases |log| - i
  {
    if i < |log| {
      assert log[..i + 1][..i] == log[..i];
      DuplicateStays(log, stop, i + 1);
    } else {
      assert log[..i] == log;
    }
  }

  /** The recorded acceptance of lineage l says what decision d says. */
  predicate SameAcceptance(e: Event, d: Decision, l: LineageRef) {
    && e.RiskAcceptedEvent?
    && e.actor == d.principal && e.reason == d.reason && e.riskClass == DecisionClass(d)
    && e.ref.session == l.session && e.ref.gen == l.gen && e.restore == d.restore
    && e.oldResolution == d.expectedResolution && e.evidence == d.evidence
  }

  /** An exact replay of a committed decision: answered without a write. */
  predicate AcceptReplayed(db: DB, d: Decision) {
    && d.evidence != [] && d.lineages != []
    && d.stop in db.stops && DecisionNames(db.stops[d.stop], d)
    && var prior := PriorEvents(db.log, d.stop);
    && prior.Some? && |prior.value| == |d.lineages|
    && DistinctLineages(d.lineages)
    && (forall i | 0 <= i < |d.lineages| ::
          d.lineages[i].attempt in prior.value && SameAcceptance(prior.value[d.lineages[i].attempt], d, d.lineages[i]))
    && (if DecisionClass(d).ClassC? then db.stops[d.stop].resolution.RiskAccepted? else db.stops[d.stop].resolution.TargetAbsent?)
  }

  method AcceptStopAdministrativeRisk(s: Store, d: Decision) returns (err: Error)
    modifies s
    ensures err.Nil? <==> AcceptReplayed(old(s.db), d) || AcceptRiskAdmits(old(s.db), d)
    ensures s.db == if AcceptRiskAdmits(old(s.db), d) then AcceptRiskCommit(old(s.db), d) else old(s.db)
  {
    if d.evidence == [] || d.lineages == [] { return StateConflict; }
    var tx := s.db;
    if d.stop !in tx.stops { return NotFound; }
    var stop := tx.stops[d.stop];
    if !DecisionNames(stop, d) { return LineageMismatch; }
    var prior := StopAcceptanceEvents(tx.log, d.stop);
    PriorEventsEmpty(tx.log, d.stop);
    if prior.None? { return StateConflict; }
    if |prior.value| != 0 {
      err := ReplayDecision(d, stop, prior.value);
      return;
    }
    if !OwnerAdmits(tx.restores, stop.target) { return Quarantined; }
    if stop.target.restore.Some? {
      var r := stop.target.restore.value;
      if tx.restores[r].principal != Some(d.principal) || !tx.restores[r].resolution.CleanupClaimed? { return StateConflict; }
    }
    var risk := DecisionClass(d);
    if risk.ClassB? && (!stop.resolution.TargetAbsent? || d.expectedResolution != stop.resolution) { return StateConflict; }
    if risk.ClassB? && StopTargetAbsentEvent(d.stop, d.pair) !in tx.log { return StateConflict; }
    var ok := CheckLineages(tx, d, stop);
    if !ok { return LineageMismatch; }
    if stop.resolution != d.expectedResolution { return StateConflict; }
    if risk.ClassC? {
      tx := tx.(stops := tx.stops[d.stop := stop.(resolution := RiskAccepted, resolvedAt := Some(d.at))]);
    }
    var log := AppendAcceptances(tx.log, d);
    tx := tx.(log := log);
    s.db := tx;
    return Nil;
  }

  /** Every lineage of the decision is named once and is a quarantined lineage of the Pair. */
  method CheckLineages(db: DB, d: Decision, stop: Stop) returns (ok: bool)
    ensures ok <==> DistinctLineages(d.lineages) && forall i | 0 <= i < |d.lineages| :: LineageAtRisk(db, d, stop, d.lineages[i])
  {
    hide LineageAtRisk;
    var seen: set<Option<Id>> := {};
    for i := 0 to |d.lineages|
      invariant seen == set k | 0 <= k < i :: d.lineages[k].attempt
      invariant forall j, k | 0 <= j < k < i :: d.lineages[j].attempt != d.lineages[k].attempt
      invariant forall k | 0 <= k < i :: LineageAtRisk(db, d, stop, d.lineages[k])
    {
      var l := d.lineages[i];
      if l.attempt in seen || !LineageAtRisk(db, d, stop, l) { return false; }
      seen := seen + {l.attempt};
    }
    return true;
  }

  /** One acceptance event for each lineage. */
  method AppendAcceptances(log: seq<Event>, d: Decision) returns (all: seq<Event>)
    ensures all == log + AcceptanceEvents(d, d.lineages)
  {
    all := log;
    for i := 0 to |d.lineages|
      invariant all == log + AcceptanceEvents(d, d.lineages[..i])
    {
      all := all + [AcceptanceEvent(d, d.lineages[i])];
      assert AcceptanceEvents(d, d.lineages[..i + 1]) == AcceptanceEvents(d, d.lineages[..i]) + [AcceptanceEvent(d, d.lineages[i])];
    }
    assert d.lineages[..|d.lineages|] == d.lineages;
  }

  /** The replay check of a decision whose acceptances are already in the log. */
  method ReplayDecision(d: Decision, stop: Stop, prior: map<Option<Id>, Event>) returns (err: Error)
    ensures err.Nil? <==>
      && |prior| == |d.lineages| && DistinctLineages(d.lineages)
      && (forall i | 0 <= i < |d.lineages| ::
            d.lineages[i].attempt in prior && SameAcceptance(prior[d.lineages[i].attempt], d, d.lineages[i]))
      && (if DecisionClass(d).ClassC? then stop.resolution.RiskAccepted? else stop.resolution.TargetAbsent?)
  {
    if |prior| != |d.lineages| { return StateConflict; }
    var seen: set<Option<Id>> := {};
    for i := 0 to |d.lineages|
      invariant seen == set k | 0 <= k < i :: d.lineages[k].attempt
      invariant forall j, k | 0 <= j < k < i :: d.lineages[j].attempt != d.lineages[k].attempt
      invariant forall k | 0 <= k < i ::
        d.lineages[k].attempt in prior && SameAcceptance(prior[d.lineages[k].attempt], d, d.lineages[k])
    {
      var l := d.lineages[i];
      if l.attempt in seen { return StateConflict; }
      seen := seen + {l.attempt};
      if l.attempt !in prior || !SameAcceptance(prior[l.attempt], d, l) { return StateConflict; }
    }
    if DecisionClass(d).ClassC? && !stop.resolution.RiskAccepted? { return StateConflict; }
    if DecisionClass(d).ClassB? && !stop.resolution.TargetAbsent? { return StateConflict; }
    return Nil;
  }
}
