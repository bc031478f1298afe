/** What a clearance cleans and what an ambiguous restore is resolved by: stops confirmed for
    exactly that lineage, or acceptances of exactly that lineage by the deciding principal. */
module EvidenceTheorems {
  import opened Domain
  import opened Tables
  import opened StopTransactions
  import opened ClearanceTransactions
  import opened RestoreTransactions
  import opened Invariants
  import opened Steps
  import Admission
  import ClearanceProofs
  import RowEffects
  import Runs
  import StopTheorems

  // --- evidence -----------------------------------------------------------------------------

  /** The attempt is quarantined on the Pair. */
  predicate Risky(db: DB, a: Id, pair: Id) {
    && a in db.attempts && db.attempts[a].quarantined
    && db.attempts[a].lineage.task in db.tasks && db.tasks[db.attempts[a].lineage.task].pair == pair
  }

  function LineageOf(db: DB, a: Id): LineageRef
    requires a in db.attempts
  {
    LineageRef(Some(a), db.attempts[a].lineage.session, db.attempts[a].lineage.gen)
  }

  predicate NamesRef(t: StopTarget, ref: LineageRef) {
    && t.session == ref.session && t.gen == ref.gen
    && (ref.attempt.Some? ==> t.lineage.Some? && t.lineage.value.attempt == ref.attempt.value)
  }

  /** The stop is confirmed, and the attempt it ended, if any, is closed and not yet cleared. */
  predicate ConfirmedStop(db: DB, k: Id) {
    && k in db.stops && db.stops[k].resolution == TerminationConfirmed
    && (db.stops[k].target.lineage.Some? ==>
          var a := db.stops[k].target.lineage.value.attempt;
          a in db.attempts && db.attempts[a].ended.Some? && db.attempts[a].quarantined)
  }

  /** The i-th event of the log is the principal's acceptance of this lineage for this stop, of
      the class the stop's result asks for. */
  predicate AcceptanceAt(db: DB, i: int, k: Id, pair: Id, principal: Id, ref: LineageRef) {
    && 0 <= i < |db.log| && k in db.stops
    && (db.stops[k].resolution == TargetAbsent || db.stops[k].resolution == RiskAccepted)
    && db.log[i].RiskAcceptedEvent?
    && var e := db.log[i];
    && e.stop == k && e.pair == pair && e.actor == principal && e.ref == ref && e.restore == db.stops[k].target.restore
    && e.riskClass == (if db.stops[k].resolution == TargetAbsent then ClassB else ClassC)
  }

  predicate AcceptedOnce(db: DB, k: Id, pair: Id, principal: Id, ref: LineageRef) {
    exists i | 0 <= i < |db.log| :: AcceptanceAt(db, i, k, pair, principal, ref)
      && forall j | 0 <= j < |db.log| && AcceptanceAt(db, j, k, pair, principal, ref) :: j == i
  }

  // --- clearances ---------------------------------------------------------------------------

  predicate ClearedBefore(db: DB, k: Id, pair: Id, ref: LineageRef) {
    exists i | 0 <= i < |db.log| :: db.log[i].LineageClearedEvent? && db.log[i].pair == pair && db.log[i].ref == ref
      && db.log[i].stop == k && db.log[i].key == TerminalGeneration
  }

  /** The item's stop proves its lineage. */
  predicate Proves(db: DB, rq: Request, item: Item) {
    && item.stop.Some? && item.stop.value in db.stops
    && var k := item.stop.value;
    && db.stops[k].target.pair == rq.pair
    && match item.basis
       case PhysicalClearance => ConfirmedStop(db, k) && NamesRef(db.stops[k].target, item.ref)
       case AbsenceClearance =>
         db.stops[k].resolution == TargetAbsent && NamesRef(db.stops[k].target, item.ref) && AcceptedOnce(db, k, rq.pair, rq.principal, item.ref)
       case RiskClearance => db.stops[k].resolution == RiskAccepted && AcceptedOnce(db, k, rq.pair, rq.principal, item.ref)
  }

  predicate NamedAt(db: DB, pair: Id, ref: LineageRef, i: int) {
    && 0 <= i < |db.stopOrder| && db.stopOrder[i] in db.stops
    && db.stops[db.stopOrder[i]].target.pair == pair && NamesRef(db.stops[db.stopOrder[i]].target, ref)
  }

  /** No stop of the lineage is newer than the item's. */
  predicate NewestProof(db: DB, pair: Id, item: Item) {
    forall i | 0 <= i < |db.stopOrder| :: NamedAt(db, pair, item.ref, i) && (forall j | i < j < |db.stopOrder| :: !NamedAt(db, pair, item.ref, j))
      ==> item.stop == Some(db.stopOrder[i])
  }

  /** A stop that ended in an absent target or an accepted risk was reconciled for the lineage. */
  predicate Settles(db: DB, rq: Request, k: Id, ref: LineageRef)
    requires k in db.stops
  {
    && db.stops[k].resolution in {TerminationConfirmed, TargetAbsent, RiskAccepted}
    && (db.stops[k].resolution != TerminationConfirmed && NamesRef(db.stops[k].target, ref) ==>
          ClearedBefore(db, k, rq.pair, ref) || AcceptedOnce(db, k, rq.pair, rq.principal, ref))
  }

  /** One lineage of a request. */
  predicate LineageChecks(db: DB, rq: Request, item: Item) {
    && Proves(db, rq, item) && NewestProof(db, rq.pair, item)
    && forall k | k in db.stops && db.stops[k].target.pair == rq.pair :: Settles(db, rq, k, item.ref)
  }

  /** The request names the session and exactly the quarantined attempts, all of them closed,
      each with its proof, on a Pair without an unresolved restore. */
  predicate ClearChecks(db: DB, rq: Request) {
    && rq.pair in db.sessions && db.sessions[rq.pair].quarantined
    && rq.session.ref == LineageRef(None, db.sessions[rq.pair].session, db.sessions[rq.pair].gen)
    && (forall r | r in db.restores && db.restores[r].tuple.pair == rq.pair :: db.restores[r].resolution == RestoreResolved)
    && (rq.restore.Some? ==> rq.restore.value in db.restores && db.restores[rq.restore.value].tuple.pair == rq.pair)
    && LineageChecks(db, rq, rq.session)
    && (forall i | 0 <= i < |rq.attempts| ::
          && rq.attempts[i].ref.attempt.Some? && Risky(db, rq.attempts[i].ref.attempt.value, rq.pair)
          && db.attempts[rq.attempts[i].ref.attempt.value].ended.Some? && rq.attempts[i].ref == LineageOf(db, rq.attempts[i].ref.attempt.value)
          && LineageChecks(db, rq, rq.attempts[i]))
    && (forall i, j | 0 <= i < j < |rq.attempts| :: rq.attempts[i].ref.attempt != rq.attempts[j].ref.attempt)
    && forall a | a in db.attempts && Risky(db, a, rq.pair) :: exists i | 0 <= i < |rq.attempts| :: rq.attempts[i].ref.attempt == Some(a)
  }

  // --- the audit joins ----------------------------------------------------------------------

  lemma AcceptedIff(db: DB, k: Id, pair: Id, principal: Id, ref: LineageRef, riskClass: RiskClass)
    requires k in db.stops && (if riskClass == ClassB then db.stops[k].resolution == TargetAbsent else db.stops[k].resolution == RiskAccepted)
    ensures AcceptedLineage(db.log, k, pair, principal, ref, riskClass, db.stops[k].target.restore) <==> AcceptedOnce(db, k, pair, principal, ref)
  {
    var restore := db.stops[k].target.restore;
    forall i | 0 <= i < |db.log| ensures AcceptedBy(db.log[i], k, pair, principal, ref, riskClass, restore) <==> AcceptanceAt(db, i, k, pair, principal, ref) {}
    if AcceptedLineage(db.log, k, pair, principal, ref, riskClass, restore) {
      var i :| 0 <= i < |db.log| && OnlyAcceptance(db.log, i, k, pair, principal, ref, riskClass, restore);
      assert AcceptanceAt(db, i, k, pair, principal, ref);
    }
    if AcceptedOnce(db, k, pair, principal, ref) {
      var i :| 0 <= i < |db.log| && AcceptanceAt(db, i, k, pair, principal, ref)
        && forall j | 0 <= j < |db.log| && AcceptanceAt(db, j, k, pair, principal, ref) :: j == i;
      assert OnlyAcceptance(db.log, i, k, pair, principal, ref, riskClass, restore);
    }
  }

  lemma PhysicalIff(db: DB, k: Id, pair: Id, ref: LineageRef)
    requires Inv(db) && k in db.stops && db.stops[k].target.pair == pair
    ensures PositiveEvidence(db, pair, ref.session, ref.gen, None, ref.attempt, Some(k)) <==> ConfirmedStop(db, k) && NamesRef(db.stops[k].target, ref)
  {
    hide Inv, PositiveEvidence;
    StopTheorems.EvidenceExact(db, pair, ref.session, ref.gen, None, ref.attempt, Some(k));
    StopTheorems.StopRow1(db, k);
  }

  lemma ProvesIff(db: DB, rq: Request, item: Item)
    requires Inv(db)
    ensures BasisVerified(db, rq, item) <==> Proves(db, rq, item)
  {
    hide Inv, PositiveEvidence, AcceptedLineage, AcceptedOnce, ConfirmedStop;
    if item.stop.Some? && item.stop.value in db.stops && db.stops[item.stop.value].target.pair == rq.pair {
      var k := item.stop.value;
      StopTheorems.StopRow1(db, k);
      if item.basis.PhysicalClearance? { PhysicalIff(db, k, rq.pair, item.ref); }
      if item.basis.AbsenceClearance? && db.stops[k].resolution == TargetAbsent { AcceptedIff(db, k, rq.pair, rq.principal, item.ref, ClassB); }
      if item.basis.RiskClearance? && db.stops[k].resolution == RiskAccepted { AcceptedIff(db, k, rq.pair, rq.principal, item.ref, ClassC); }
    }
  }

  lemma NewestIff(db: DB, pair: Id, item: Item)
    ensures EvidenceCurrent(db, pair, item) <==> NewestProof(db, pair, item)
  {
    forall i | 0 <= i < |db.stopOrder| ensures Names(db, pair, item.ref, db.stopOrder[i]) <==> NamedAt(db, pair, item.ref, i) {}
  }

  lemma ReconciledIff(db: DB, rq: Request, k: Id, ref: LineageRef)
    requires k in db.stops && db.stops[k].resolution in {TargetAbsent, RiskAccepted}
    ensures Reconciled(db, rq, k, ref, ResolutionClass(db.stops[k].resolution), db.stops[k].target.restore)
       <==> ClearedBefore(db, k, rq.pair, ref) || AcceptedOnce(db, k, rq.pair, rq.principal, ref)
  {
    hide AcceptedLineage, AcceptedOnce;
    AcceptedIff(db, k, rq.pair, rq.principal, ref, ResolutionClass(db.stops[k].resolution));
    assert PriorClearance(db.log, k, rq.pair, ref) <==> ClearedBefore(db, k, rq.pair, ref);
  }

  /** The items are the session's and exactly those of the quarantined attempts. */
  predicate ItemsMatch(db: DB, rq: Request) {
    && rq.session.ref.attempt.None?
    && (forall i | 0 <= i < |rq.attempts| ::
          && rq.attempts[i].ref.attempt.Some? && Risky(db, rq.attempts[i].ref.attempt.value, rq.pair)
          && rq.attempts[i].ref == LineageOf(db, rq.attempts[i].ref.attempt.value))
    && forall a | a in db.attempts && Risky(db, a, rq.pair) :: exists i | 0 <= i < |rq.attempts| :: rq.attempts[i].ref.attempt == Some(a)
  }

  predicate SettlesAll(db: DB, rq: Request, k: Id)
    requires k in db.stops
  {
    Settles(db, rq, k, rq.session.ref) && forall i | 0 <= i < |rq.attempts| :: Settles(db, rq, k, rq.attempts[i].ref)
  }

  lemma StopIff(db: DB, rq: Request, k: Id)
    requires Inv(db) && k in db.stops && db.stops[k].target.pair == rq.pair && ItemsMatch(db, rq)
    ensures StopReconciled(db, rq, k) <==> SettlesAll(db, rq, k)
  {
    hide Inv, Reconciled, ClearedBefore, AcceptedOnce;
    var t := db.stops[k].target;
    Admission.StopFacts(db, k);
    if db.stops[k].resolution in {TargetAbsent, RiskAccepted} {
      ReconciledIff(db, rq, k, rq.session.ref);
      if t.lineage.Some? && Risky(db, t.lineage.value.attempt, rq.pair) {
        ReconciledIff(db, rq, k, LineageOf(db, t.lineage.value.attempt));
        var i :| 0 <= i < |rq.attempts| && rq.attempts[i].ref.attempt == Some(t.lineage.value.attempt);
        assert rq.attempts[i].ref == LineageOf(db, t.lineage.value.attempt);
      }
    }
  }

  lemma StopsIff(db: DB, rq: Request)
    requires Inv(db) && ItemsMatch(db, rq)
    ensures PairStopsReconciled(db, rq) <==>
      && (forall k | k in db.stops && db.stops[k].target.pair == rq.pair :: SettlesAll(db, rq, k))
      && NewestProof(db, rq.pair, rq.session) && forall i | 0 <= i < |rq.attempts| :: NewestProof(db, rq.pair, rq.attempts[i])
  {
    hide Inv, StopReconciled, SettlesAll, EvidenceCurrent, NewestProof, ItemsMatch;
    Ordered(db);
    forall k | k in db.stops && db.stops[k].target.pair == rq.pair ensures StopReconciled(db, rq, k) <==> SettlesAll(db, rq, k) { StopIff(db, rq, k); }
    NewestIff(db, rq.pair, rq.session);
    forall i | 0 <= i < |rq.attempts| ensures EvidenceCurrent(db, rq.pair, rq.attempts[i]) <==> NewestProof(db, rq.pair, rq.attempts[i]) {
      NewestIff(db, rq.pair, rq.attempts[i]);
    }
  }

  lemma Ordered(db: DB)
    requires Inv(db)
    ensures OrderInv(db.stops, db.stopOrder)
  {}

  /** Distinct items of the right number name every quarantined attempt, and the other way round. */
  lemma CoverIff(db: DB, rq: Request)
    requires forall i | 0 <= i < |rq.attempts| :: rq.attempts[i].ref.attempt.Some? && Risky(db, rq.attempts[i].ref.attempt.value, rq.pair)
    requires forall i, j | 0 <= i < j < |rq.attempts| :: rq.attempts[i].ref.attempt != rq.attempts[j].ref.attempt
    ensures |ExpectedAttempts(db, rq.pair)| == |rq.attempts| <==>
      forall a | a in db.attempts && Risky(db, a, rq.pair) :: exists i | 0 <= i < |rq.attempts| :: rq.attempts[i].ref.attempt == Some(a)
  {
    var named, expected := Named(rq.attempts), ExpectedAttempts(db, rq.pair);
    ClearanceProofs.NamedCounts(rq.attempts);
    assert forall a :: a in expected <==> a in db.attempts && Risky(db, a, rq.pair);
    assert named <= expected;
    assert forall a :: a in named <==> exists i | 0 <= i < |rq.attempts| :: rq.attempts[i].ref.attempt == Some(a);
    if |expected| == |rq.attempts| { ClearanceProofs.SubsetOfEqualSize(named, expected); }
    if expected <= named { assert named == expected; }
  }

  lemma ItemIff(db: DB, rq: Request, i: int)
    requires Inv(db) && 0 <= i < |rq.attempts|
    requires rq.attempts[i].ref.attempt.Some? && rq.attempts[i].ref.attempt.value in db.attempts
    ensures var item := rq.attempts[i]; var a := item.ref.attempt.value;
      (&& a in ExpectedAttempts(db, rq.pair) && item.ref == AttemptRef(db, a) && BasisVerified(db, rq, item) && db.attempts[a].ended.Some?
       && AuditLineage(db, rq.pair, db.attempts[a].lineage.task, db.attempts[a].lineage.contract, a))
      <==> Risky(db, a, rq.pair) && db.attempts[a].ended.Some? && item.ref == LineageOf(db, a) && Proves(db, rq, item)
  {
    hide Inv, BasisVerified, Proves;
    ProvesIff(db, rq, rq.attempts[i]);
    Admission.AttemptFacts(db, rq.attempts[i].ref.attempt.value);
  }

  /** Each item is expected, exact, closed and proved, and none is named twice. */
  predicate ItemsProved(db: DB, rq: Request) {
    && (forall i | 0 <= i < |rq.attempts| ::
          && rq.attempts[i].ref.attempt.Some? && Risky(db, rq.attempts[i].ref.attempt.value, rq.pair)
          && db.attempts[rq.attempts[i].ref.attempt.value].ended.Some? && rq.attempts[i].ref == LineageOf(db, rq.attempts[i].ref.attempt.value)
          && Proves(db, rq, rq.attempts[i]))
    && forall i, j | 0 <= i < j < |rq.attempts| :: rq.attempts[i].ref.attempt != rq.attempts[j].ref.attempt
  }

  lemma ItemsIff(db: DB, rq: Request)
    requires Inv(db)
    ensures ItemsAdmit(db, rq) <==> ItemsProved(db, rq)
  {
    hide Inv, BasisVerified, Proves, AuditLineage;
    forall i | 0 <= i < |rq.attempts| && rq.attempts[i].ref.attempt.Some? && rq.attempts[i].ref.attempt.value in db.attempts
      ensures var item := rq.attempts[i]; var a := item.ref.attempt.value;
        (&& a in ExpectedAttempts(db, rq.pair) && item.ref == AttemptRef(db, a) && BasisVerified(db, rq, item) && db.attempts[a].ended.Some?
         && AuditLineage(db, rq.pair, db.attempts[a].lineage.task, db.attempts[a].lineage.contract, a))
        <==> Risky(db, a, rq.pair) && db.attempts[a].ended.Some? && item.ref == LineageOf(db, a) && Proves(db, rq, item)
    {
      ItemIff(db, rq, i);
    }
  }

  lemma ClearAdmission(db: DB, rq: Request)
    requires Inv(db)
    ensures ClearAdmits(db, rq) <==> ClearChecks(db, rq)
  {
    hide Inv, BasisVerified, Proves, ItemsAdmit, PairStopsReconciled, ExpectedAttempts, NewestProof, Settles, Risky;
    ItemsIff(db, rq);
    ProvesIff(db, rq, rq.session);
    if ItemsProved(db, rq) {
      CoverIff(db, rq);
      if ItemsMatch(db, rq) { StopsIff(db, rq); }
    }
  }

  /** In every state of every run a clearance commits exactly when it names the whole Pair and
      proves each lineage. */
  lemma ClearanceCommitsIff(states: seq<DB>, steps: seq<Step>, i: nat, rq: Request)
    requires Run(states, steps) && i <= |steps|
    ensures Allowed(states[i], PairStep(Clear(rq))) <==> ClearChecks(states[i], rq)
  {
    hide Inv, Effect, ClearAdmits, ClearChecks;
    Runs.Always(states, steps, i);
    ClearAdmission(states[i], rq);
  }

  /** The lineage was ended by a confirmed stop of the Pair, or its risk was accepted. */
  predicate Evidenced(db: DB, pair: Id, principal: Id, ref: LineageRef) {
    exists k | k in db.stops ::
      && db.stops[k].target.pair == pair
      && ((ConfirmedStop(db, k) && NamesRef(db.stops[k].target, ref)) || AcceptedOnce(db, k, pair, principal, ref))
  }

  /** Nothing is cleaned without evidence: for the session and for every attempt that a clearance
      cleans there is a confirmed stop of that session, generation and attempt, or an acceptance
      of exactly that lineage by the principal of the request. */
  lemma ClearanceIsEvidenced(states: seq<DB>, steps: seq<Step>, i: nat, rq: Request)
    requires Run(states, steps) && i < |steps| && steps[i] == PairStep(Clear(rq))
    ensures rq.pair in states[i].sessions
    ensures Evidenced(states[i], rq.pair, rq.principal, LineageRef(None, states[i].sessions[rq.pair].session, states[i].sessions[rq.pair].gen))
    ensures forall a | a in states[i].attempts && a in states[i + 1].attempts && states[i].attempts[a].quarantined && !states[i + 1].attempts[a].quarantined ::
              Evidenced(states[i], rq.pair, rq.principal, LineageOf(states[i], a))
  {
    hide Inv, Effect, Allowed, ConfirmedStop, AcceptedOnce, NewestProof, Settles, Risky, RowEffects.PairRows, RowEffects.OperationRows, RowEffects.LogAfter;
    assert StepAt(states, steps, i);
    ClearanceCommitsIff(states, steps, i, rq);
    RowEffects.StepRows(states[i], steps[i]);
    forall a | a in states[i].attempts && a in states[i + 1].attempts && states[i].attempts[a].quarantined && !states[i + 1].attempts[a].quarantined
      ensures Evidenced(states[i], rq.pair, rq.principal, LineageOf(states[i], a))
    {
      assert RowEffects.Row(states[i + 1].attempts, a) == RowEffects.AttemptAfter(states[i], steps[i], a);
      var j :| 0 <= j < |rq.attempts| && rq.attempts[j].ref.attempt == Some(a);
    }
  }

  // --- ambiguous restores -------------------------------------------------------------------

  /** The log holds the principal's acceptance of the lineage for a stop of the restore, of the
      class the stop's result asks for. */
  predicate AcceptedFor(db: DB, restore: Id, pair: Id, principal: Id, ref: LineageRef) {
    exists i | 0 <= i < |db.log| ::
      && db.log[i].RiskAcceptedEvent? && db.log[i].stop in db.stops
      && db.stops[db.log[i].stop].target.restore == Some(restore) && db.stops[db.log[i].stop].target.session == ref.session
      && AcceptanceAt(db, i, db.log[i].stop, pair, principal, ref)
  }

  predicate ConfirmedFor(db: DB, pair: Id, ref: LineageRef) {
    exists k | k in db.stops :: db.stops[k].target.pair == pair && ConfirmedStop(db, k) && NamesRef(db.stops[k].target, ref)
  }

  predicate ConfirmedOrAccepted(db: DB, restore: Id, pair: Id, principal: Id, ref: LineageRef) {
    ConfirmedFor(db, pair, ref) || AcceptedFor(db, restore, pair, principal, ref)
  }

  /** A stop of the restore is confirmed, on the runtime the restore observed if it observed one,
      and every quarantined attempt of the Pair has a confirmed stop that names it. */
  predicate PhysicalChecks(db: DB, op: Id)
    requires op in db.restores
  {
    var r := db.restores[op];
    && (exists k | k in db.stops ::
          && db.stops[k].target.restore == Some(op) && ConfirmedStop(db, k)
          && (r.observed.Some? ==> db.stops[k].target.gen == r.observed.value))
    && forall a | a in db.attempts && Risky(db, a, r.tuple.pair) ::
         exists k | k in db.stops :: ConfirmedStop(db, k) && db.stops[k].target.lineage.Some? && db.stops[k].target.lineage.value.attempt == a
  }

  /** Every stop of the restore is settled; once there is one, the session and every quarantined
      attempt of the Pair is confirmed ended or accepted by the principal. */
  predicate AdministrativeChecks(db: DB, op: Id, principal: Id)
    requires op in db.restores
  {
    var pair := db.restores[op].tuple.pair;
    && pair in db.sessions
    && (forall k | k in db.stops && db.stops[k].target.restore == Some(op) :: db.stops[k].resolution in {TerminationConfirmed, TargetAbsent, RiskAccepted})
    && ((exists k | k in db.stops :: db.stops[k].target.restore == Some(op)) ==>
          && ConfirmedOrAccepted(db, op, pair, principal, LineageRef(None, db.sessions[pair].session, db.sessions[pair].gen))
          && forall a | a in db.attempts && Risky(db, a, pair) :: ConfirmedOrAccepted(db, op, pair, principal, LineageOf(db, a)))
  }

  /** Physical evidence needs the stop that only a cleanup claim makes. */
  predicate AmbiguousChecks(db: DB, op: Id, pair: Id, session: Id, gen: Id, basis: RestoreBasis, principal: Id) {
    && op in db.restores
    && var r := db.restores[op];
    && r.tuple.pair == pair && r.tuple.session == session && r.tuple.expected == gen
    && match basis
       case Http200Basis => false
       case PhysicalBasis => r.resolution == CleanupClaimed && r.principal == Some(principal) && PhysicalChecks(db, op)
       case AdministrativeBasis =>
         && (r.resolution == RestoreOutcomeUnknown || (r.resolution in {RecoveryClaimed, CleanupClaimed} && r.principal == Some(principal)))
         && AdministrativeChecks(db, op, principal)
  }

  lemma ConfirmedIff(db: DB, pair: Id, ref: LineageRef)
    requires Inv(db)
    ensures PositiveEvidence(db, pair, ref.session, ref.gen, None, ref.attempt, None) <==> ConfirmedFor(db, pair, ref)
  {
    hide Inv, PositiveEvidence;
    StopTheorems.EvidenceExact(db, pair, ref.session, ref.gen, None, ref.attempt, None);
    forall k | k in db.stops ensures StopRow(db.stops[k]) { StopTheorems.StopRow1(db, k); }
  }

  /** A stop that names a quarantined attempt names its Pair and runtime. */
  lemma AttemptConfirmedIff(db: DB, a: Id, pair: Id)
    requires Inv(db) && a in db.attempts && Risky(db, a, pair)
    ensures ConfirmedFor(db, pair, LineageOf(db, a)) <==>
      exists k | k in db.stops :: ConfirmedStop(db, k) && db.stops[k].target.lineage.Some? && db.stops[k].target.lineage.value.attempt == a
  {
    hide Inv;
    forall k | k in db.stops && db.stops[k].target.lineage.Some? && db.stops[k].target.lineage.value.attempt == a
      ensures db.stops[k].target.pair == pair && NamesRef(db.stops[k].target, LineageOf(db, a))
    {
      Admission.StopFacts(db, k);
    }
  }

  /** The stop linked to a restore is one, on the restore's Pair and session. */
  lemma LinkedFacts(db: DB, op: Id, k: Id)
    requires Inv(db) && op in db.restores && k in db.stops && db.stops[k].target.restore == Some(op)
    ensures db.stops[k].target.pair == db.restores[op].tuple.pair
    ensures db.restores[op].resolution in {CleanupClaimed, RestoreResolved}
    ensures db.restores[op].resolution != RestoreResolved ==> db.stops[k].target.session == db.restores[op].tuple.session
    ensures forall j | j in db.stops && db.stops[j].target.restore == Some(op) :: j == k
  {
    assert StopsUnique(db.stops);
    forall j | j in db.stops && db.stops[j].target.restore == Some(op) ensures j == k {
      assert LinkedStop(db.stops, j, op) && LinkedStop(db.stops, k, op);
    }
    hide Inv;
    Admission.StopFacts(db, k);
    Admission.RestoreFacts(db, op);
  }

  lemma CoveredIff(db: DB, pair: Id)
    requires Inv(db)
    ensures (forall a | a in db.attempts && OnPair(db.tasks, db.attempts, a, pair) && db.attempts[a].quarantined ::
               PositiveEvidence(db, pair, db.attempts[a].lineage.session, db.attempts[a].lineage.gen, None, Some(a), None))
       <==> forall a | a in db.attempts && Risky(db, a, pair) ::
              exists k | k in db.stops :: ConfirmedStop(db, k) && db.stops[k].target.lineage.Some? && db.stops[k].target.lineage.value.attempt == a
  {
    hide Inv, PositiveEvidence, ConfirmedStop, ConfirmedFor;
    forall a | a in db.attempts && Risky(db, a, pair)
      ensures PositiveEvidence(db, pair, db.attempts[a].lineage.session, db.attempts[a].lineage.gen, None, Some(a), None)
         <==> exists k | k in db.stops :: ConfirmedStop(db, k) && db.stops[k].target.lineage.Some? && db.stops[k].target.lineage.value.attempt == a
    {
      ConfirmedIff(db, pair, LineageOf(db, a));
      AttemptConfirmedIff(db, a, pair);
    }
  }

  /** The evidence of the one linked stop. */
  lemma LinkedIff(db: DB, op: Id, k: Id, session: Id, gen: Id)
    requires Inv(db) && op in db.restores && k in db.stops && db.stops[k].target.restore == Some(op)
    requires db.stops[k].target.session == session && db.stops[k].target.gen == gen
    ensures PositiveEvidence(db, db.stops[k].target.pair, session, gen, Some(op), None, None) <==> ConfirmedStop(db, k)
  {
    hide Inv, PositiveEvidence;
    LinkedFacts(db, op, k);
    StopTheorems.EvidenceExact(db, db.stops[k].target.pair, session, gen, Some(op), None, None);
    StopTheorems.StopRow1(db, k);
  }

  lemma PhysicalCoverageIff(db: DB, op: Id)
    requires Inv(db) && op in db.restores && db.restores[op].resolution != RestoreResolved
    ensures PhysicalCoverage(db, op, db.restores[op].tuple.pair, db.restores[op].tuple.session) <==> PhysicalChecks(db, op)
  {
    hide Inv, PositiveEvidence, ConfirmedStop, Risky;
    CoveredIff(db, db.restores[op].tuple.pair);
    Admission.RestoreFacts(db, op);
    forall k | k in db.stops && db.stops[k].target.restore == Some(op)
      ensures db.stops[k].target.pair == db.restores[op].tuple.pair && db.stops[k].target.session == db.restores[op].tuple.session
      ensures PositiveEvidence(db, db.stops[k].target.pair, db.stops[k].target.session, db.stops[k].target.gen, Some(op), None, None) <==> ConfirmedStop(db, k)
    {
      LinkedFacts(db, op, k);
      LinkedIff(db, op, k, db.stops[k].target.session, db.stops[k].target.gen);
    }
  }

  lemma AcceptanceIff(db: DB, restore: Id, pair: Id, principal: Id, ref: LineageRef)
    requires Inv(db) && restore in db.restores && db.restores[restore].tuple.pair == pair
    ensures HasAcceptance(db, restore, pair, principal, ref) <==> AcceptedFor(db, restore, pair, principal, ref)
  {
    hide Inv;
    forall k | k in db.stops && db.stops[k].target.restore == Some(restore) ensures db.stops[k].target.pair == pair { LinkedFacts(db, restore, k); }
    if HasAcceptance(db, restore, pair, principal, ref) {
      var e :| e in db.log
        && e.RiskAcceptedEvent? && e.pair == pair && e.actor == principal && e.ref == ref && e.restore == Some(restore) && e.stop in db.stops
        && db.stops[e.stop].target.session == ref.session && db.stops[e.stop].target.restore == Some(restore)
        && ((e.riskClass.ClassB? && db.stops[e.stop].resolution.TargetAbsent?) || (e.riskClass.ClassC? && db.stops[e.stop].resolution.RiskAccepted?));
      var i :| 0 <= i < |db.log| && db.log[i] == e;
      assert AcceptanceAt(db, i, e.stop, pair, principal, ref);
    }
  }

  lemma CoveredOrAcceptedIff(db: DB, op: Id, principal: Id)
    requires Inv(db) && op in db.restores && db.restores[op].resolution != RestoreResolved
    ensures AdministrativeCoverage(db, op, db.restores[op].tuple.pair, principal) <==>
      var pair := db.restores[op].tuple.pair;
      && pair in db.sessions
      && ConfirmedOrAccepted(db, op, pair, principal, LineageRef(None, db.sessions[pair].session, db.sessions[pair].gen))
      && forall a | a in db.attempts && Risky(db, a, pair) :: ConfirmedOrAccepted(db, op, pair, principal, LineageOf(db, a))
  {
    hide Inv, PositiveEvidence, HasAcceptance, ConfirmedFor, AcceptedFor;
    var pair := db.restores[op].tuple.pair;
    Admission.RestoreFacts(db, op);
    forall ref ensures AdministrativeOrPhysical(db, op, pair, principal, ref) <==> ConfirmedOrAccepted(db, op, pair, principal, ref) {
      ConfirmedIff(db, pair, ref);
      AcceptanceIff(db, op, pair, principal, ref);
    }
  }

  lemma AmbiguousAdmission(db: DB, op: Id, pair: Id, session: Id, gen: Id, basis: RestoreBasis, principal: Id)
    requires Inv(db)
    ensures ResolveAmbiguousAdmits(db, op, pair, session, gen, basis, principal) <==> AmbiguousChecks(db, op, pair, session, gen, basis, principal)
  {
    hide Inv, PhysicalCoverage, AdministrativeCoverage, ConfirmedOrAccepted, Risky;
    if op in db.restores && db.restores[op].resolution != RestoreResolved {
      PhysicalCoverageIff(db, op);
      CoveredOrAcceptedIff(db, op, principal);
      Admission.RestoreFacts(db, op);
      forall k | k in db.stops && db.stops[k].target.restore == Some(op)
        ensures db.restores[op].resolution == CleanupClaimed
        ensures forall j | j in db.stops && db.stops[j].target.restore == Some(op) :: j == k
      {
        LinkedFacts(db, op, k);
      }
    }
  }

  /** In every state of every run an ambiguous restore is resolved exactly on this evidence. */
  lemma AmbiguousCommitsIff(states: seq<DB>, steps: seq<Step>, i: nat, op: Id, pair: Id, session: Id, gen: Id, basis: RestoreBasis, principal: Id, at: Time)
    requires Run(states, steps) && i <= |steps|
    ensures Allowed(states[i], RestoreStep(ResolveAmbiguous(op, pair, session, gen, basis, principal, at)))
       <==> AmbiguousChecks(states[i], op, pair, session, gen, basis, principal)
  {
    hide Inv, Effect, ResolveAmbiguousAdmits, AmbiguousChecks;
    Runs.Always(states, steps, i);
    AmbiguousAdmission(states[i], op, pair, session, gen, basis, principal);
  }

  /** Whenever a restore becomes resolved, the basis its row shows is backed: a physical one by a
      confirmed stop of the restore and one for every quarantined attempt of the Pair, an
      administrative one by settled stops and, once there is a stop, a confirmation or the
      principal's own acceptance for each of them, an HTTP 200 one by the observed generation. */
  lemma ResolutionIsBacked(states: seq<DB>, steps: seq<Step>, i: nat, r: Id)
    requires Run(states, steps) && i < |steps| && r in states[i + 1].restores && states[i + 1].restores[r].resolution == RestoreResolved
    requires r in states[i].restores ==> states[i].restores[r].resolution != RestoreResolved
    ensures r in states[i].restores && states[i + 1].restores[r].basis.Some? && states[i + 1].restores[r].principal.Some?
    ensures match states[i + 1].restores[r].basis.value
      case PhysicalBasis => PhysicalChecks(states[i], r)
      case AdministrativeBasis => AdministrativeChecks(states[i], r, states[i + 1].restores[r].principal.value)
      case Http200Basis => states[i].restores[r].stage == RestoreConfirmed && forall k | k in states[i].stops :: states[i].stops[k].target.restore != Some(r)
  {
    hide Inv, Effect, Allowed, PhysicalChecks, AdministrativeChecks, RowEffects.LineageRows, RowEffects.PairRows, RowEffects.LogAfter;
    assert StepAt(states, steps, i);
    var db, s := states[i], steps[i];
    Runs.Always(states, steps, i);
    RowEffects.StepRows(db, s);
    assert RowEffects.Row(states[i + 1].restores, r) == RowEffects.RestoreAfter(db, s, r);
    if s.restore.ResolveAmbiguous? {
      AmbiguousAdmission(db, s.restore.op, s.restore.pair, s.restore.session, s.restore.gen, s.restore.basis, s.restore.principal);
      AmbiguousStep(db, s.restore);
    } else {
      Admission.StepAdmission(db, s);
      Admission.RestoreFacts(db, r);
    }
  }

  lemma AmbiguousStep(db: DB, s: RestoreOp)
    requires Allowed(db, RestoreStep(s)) && s.ResolveAmbiguous?
    ensures ResolveAmbiguousAdmits(db, s.op, s.pair, s.session, s.gen, s.basis, s.principal)
  {
    hide ResolveAmbiguousAdmits;
  }
}
