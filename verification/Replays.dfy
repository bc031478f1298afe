/** Calls that are answered without a write: each repeats a call whose result the rows show. */
module Replays {
  import opened Domain
  import opened Tables
  import opened DispatchTransactions
  import opened RecoveryTransactions
  import opened RestoreTransactions
  import opened StopTransactions
  import opened Steps
  import opened StopStore

  // --- what an answer without a write means -----------------------------------------------

  /** A hold or an outage is answered when the attempt carries it and the send is at that stage; a
      stop handed to a human, for the runtime it names; an interrupted restore, once it is confirmed
      and in flight, or requested and unknown. */
  lemma HoldsRepeat(db: DB, op: Id, hold: Disposition, x: Execution, session: Id, gen: Id)
    ensures HoldReplayed(db, op, hold) ==> db.dispatches[op].stage == DispatchBound && HoldCommit(db, op, hold).attempts == db.attempts
    ensures OutageReplayed(db, x) ==>
      && db.dispatches[x.op].stage == SendConfirmed && OutageCommit(db, x).attempts == db.attempts
      && x.pair in db.sessions && db.sessions[x.pair].session == x.session && db.sessions[x.pair].gen == x.gen
    ensures AbandonedReplayed(db, op, session, gen) ==>
      && db.stops[op].stage == StopRequested && db.stops[op].resolution == ReissueRequiresHuman
      && db.stops[op].target.session == session && db.stops[op].target.gen == gen
    ensures InterruptedReplayed(db, op) ==>
      (db.restores[op].stage, db.restores[op].resolution) in {(RestoreConfirmed, RestoreInFlight), (RestoreRequested, RestoreOutcomeUnknown)}
  {}

  /** A resolution is answered to the principal who made it, on the same basis; that of a confirmed
      restore still for the runtime it observed, that of an ambiguous one for its own tuple. */
  lemma ResolutionRepeats(db: DB, op: Id, pair: Id, session: Id, gen: Id, activity: Activity, basis: RestoreBasis, principal: Id)
    ensures ResolvedReplayed(db, op, session, gen, activity, principal) ==>
      && op in db.restores
      && var r := db.restores[op];
      && r.resolution == RestoreResolved && r.basis == Some(Http200Basis) && r.principal == Some(principal)
      && r.tuple.session == session && r.observed == Some(gen) && activity in {ActivityIdle, ActivityWaitingInput}
      && r.tuple.pair in db.sessions && db.sessions[r.tuple.pair].session == session && db.sessions[r.tuple.pair].gen == gen
    ensures AmbiguousReplayed(db, op, pair, session, gen, basis, principal) ==>
      && op in db.restores
      && var r := db.restores[op];
      && r.resolution == RestoreResolved && r.basis == Some(basis) && basis != Http200Basis && r.principal == Some(principal)
      && r.tuple.pair == pair && r.tuple.session == session && r.tuple.expected == gen
  {}

  // --- decisions about risk ---------------------------------------------------------------

  /** The log holds what the decision says about this lineage. */
  predicate Recorded(log: seq<Event>, d: Decision, l: LineageRef) {
    exists i | 0 <= i < |log| :: log[i].RiskAcceptedEvent? && log[i].stop == d.stop && log[i].actor == d.principal && log[i].ref == l
      && log[i].riskClass == (if d.expectedResolution == TargetAbsent && d.expectedStage == StopTargetAbsent then ClassB else ClassC)
      && log[i].restore == d.restore && log[i].oldResolution == d.expectedResolution && log[i].reason == d.reason && log[i].evidence == d.evidence
  }

  function Keys(ls: seq<LineageRef>): set<Option<Id>> { set i | 0 <= i < |ls| :: ls[i].attempt }

  lemma {:induction false} DistinctKeys(ls: seq<LineageRef>)
    requires DistinctLineages(ls)
    ensures |Keys(ls)| == |ls|
  {
    if ls != [] {
      var n := |ls| - 1;
      DistinctKeys(ls[..n]);
      assert Keys(ls) == Keys(ls[..n]) + {ls[n].attempt};
    }
  }

  lemma EqualKeys(s: set<Option<Id>>, t: set<Option<Id>>)
    requires s <= t && |s| == |t|
    ensures s == t
  {
    assert |t - s| == |t| - |s|;
  }

  /** A repeated decision is answered when the log holds it for each of its lineages, no acceptance
      of the stop beside them, and the stop shows it. */
  lemma DecisionRepeats(db: DB, d: Decision)
    requires AcceptReplayed(db, d)
    ensures forall i | 0 <= i < |d.lineages| :: Recorded(db.log, d, d.lineages[i])
    ensures forall e | e in db.log && e.RiskAcceptedEvent? && e.stop == d.stop :: exists i | 0 <= i < |d.lineages| :: d.lineages[i].attempt == e.ref.attempt
    ensures d.stop in db.stops && db.stops[d.stop].resolution == (if db.stops[d.stop].stage == StopTargetAbsent && d.expectedResolution == TargetAbsent then TargetAbsent else RiskAccepted)
  {
    PriorEventsAre(db.log, d.stop);
    var prior := PriorEvents(db.log, d.stop).value;
    DistinctKeys(d.lineages);
    EqualKeys(Keys(d.lineages), prior.Keys);
    forall i | 0 <= i < |d.lineages| ensures Recorded(db.log, d, d.lineages[i]) {
      var e := prior[d.lineages[i].attempt];
      var j :| 0 <= j < |db.log| && db.log[j] == e;
    }
    forall e | e in db.log && e.RiskAcceptedEvent? && e.stop == d.stop ensures exists i | 0 <= i < |d.lineages| :: d.lineages[i].attempt == e.ref.attempt {
      assert e.ref.attempt in Keys(d.lineages);
    }
  }

  lemma NewAcceptance(was: seq<Event>, d: Decision, j: int)
    requires !PriorAcceptance(was, d.stop)
    ensures var log := was + AcceptanceEvents(d, d.lineages);
      0 <= j < |log| && log[j].RiskAcceptedEvent? && log[j].stop == d.stop ==> log[j].ref.attempt in Keys(d.lineages)
  {
    var log := was + AcceptanceEvents(d, d.lineages);
    if 0 <= j < |was| { assert log[j] in was; }
    if |was| <= j < |log| { assert log[j] == AcceptanceEvent(d, d.lineages[j - |was|]); }
  }

  lemma NewLineagesDiffer(db: DB, d: Decision)
    requires DistinctLineages(d.lineages) && !PriorAcceptance(db.log, d.stop)
    ensures var log := db.log + AcceptanceEvents(d, d.lineages); forall j, k | 0 <= j < k < |log| :: !SameLineage(log, d.stop, j, k)
  {
    var log := db.log + AcceptanceEvents(d, d.lineages);
    forall j, k | 0 <= j < k < |log| ensures !SameLineage(log, d.stop, j, k) {
      assert j < |db.log| ==> log[j] in db.log;
    }
  }

  /** The acceptances on record for the stop are then exactly those of the decision. */
  lemma NewPrior(db: DB, d: Decision)
    requires DistinctLineages(d.lineages) && !PriorAcceptance(db.log, d.stop)
    ensures var prior := PriorEvents(db.log + AcceptanceEvents(d, d.lineages), d.stop);
      && prior.Some? && |prior.value| == |d.lineages|
      && forall i | 0 <= i < |d.lineages| :: d.lineages[i].attempt in prior.value && prior.value[d.lineages[i].attempt] == AcceptanceEvent(d, d.lineages[i])
  {
    hide PriorAcceptance, DistinctLineages, SameLineage, PriorEvents;
    var log := db.log + AcceptanceEvents(d, d.lineages);
    PriorEventsAre(log, d.stop);
    NewLineagesDiffer(db, d);
    var prior := PriorEvents(log, d.stop).value;
    forall i | 0 <= i < |d.lineages| ensures d.lineages[i].attempt in prior && prior[d.lineages[i].attempt] == AcceptanceEvent(d, d.lineages[i]) {
      assert log[|db.log| + i] == AcceptanceEvent(d, d.lineages[i]) && log[|db.log| + i] in log;
    }
    forall a | a in prior ensures a in Keys(d.lineages) {
      var j :| 0 <= j < |log| && log[j] == prior[a];
      NewAcceptance(db.log, d, j);
    }
    DistinctKeys(d.lineages);
    assert Keys(d.lineages) == prior.Keys;
    assert |prior| == |prior.Keys|;
  }

  lemma DecisionIsAnswered(db: DB, d: Decision)
    requires AcceptRiskAdmits(db, d)
    ensures AcceptReplayed(AcceptRiskCommit(db, d), d)
  {
    hide LineageAtRisk, PriorAcceptance, PriorEvents, OwnerAdmits, SameLineage;
    NewPrior(db, d);
  }

  // --- a committed call is answered when it is repeated ------------------------------------

  lemma RestoreIsAnswered(db: DB, s: RestoreOp)
    requires RestoreAllowed(db, s)
    ensures var e := RestoreEffect(db, s);
      match s
      case ResolveConfirmed(op, session, gen, activity, principal, _) => ResolvedReplayed(e, op, session, gen, activity, principal)
      case ResolveAmbiguous(op, pair, session, gen, basis, principal, _) => AmbiguousReplayed(e, op, pair, session, gen, basis, principal)
      case ClassifyInterrupted(op) => InterruptedReplayed(e, op)
      case _ => true
  {
    hide ReserveRestoreAdmits, ReserveRestoreCommit, ClaimCleanupAdmits, ClaimCleanupCommit, PhysicalCoverage, AdministrativeCoverage, QuarantineRuntime;
    if s.ResolveAmbiguous? { CoverageStays(db, ResolveAmbiguousCommit(db, s.op, s.basis, s.principal, s.at), s.op, s.pair, s.principal); }
  }

  lemma CoverageStays(db: DB, e: DB, op: Id, pair: Id, principal: Id)
    requires e == db.(restores := e.restores, log := e.log) && db.log <= e.log
    ensures AdministrativeCoverage(db, op, pair, principal) ==> AdministrativeCoverage(e, op, pair, principal)
  {
    assert forall ev | ev in db.log :: ev in e.log;
    forall ref ensures AdministrativeOrPhysical(db, op, pair, principal, ref) ==> AdministrativeOrPhysical(e, op, pair, principal, ref) {}
  }

  /** The same call again, right after it committed, is answered without a write. */
  lemma CommittedIsAnswered(db: DB, s: Step)
    requires Allowed(db, s)
    ensures var e := Effect(db, s);
      match s
      case DispatchStep(Hold(op, hold)) => HoldReplayed(e, op, hold)
      case ExecutionStep(RecordOutage(x)) => OutageReplayed(e, x.(disposition := Some(RecoveryPending)))
      case StopStep(ClassifyAbandoned(op, session, gen, _)) => AbandonedReplayed(e, op, session, gen)
      case StopStep(AcceptRisk(d)) => AcceptReplayed(e, d)
      case RestoreStep(ResolveConfirmed(op, session, gen, activity, principal, _)) => ResolvedReplayed(e, op, session, gen, activity, principal)
      case RestoreStep(ResolveAmbiguous(op, pair, session, gen, basis, principal, _)) => AmbiguousReplayed(e, op, pair, session, gen, basis, principal)
      case RestoreStep(ClassifyInterrupted(op)) => InterruptedReplayed(e, op)
      case _ => true
  {
    hide TaskAllowed, PairAllowed, TaskEffect, PairEffect, AcceptReplayed, AcceptRiskAdmits, AcceptRiskCommit;
    match s
    case StopStep(AcceptRisk(d)) => DecisionIsAnswered(db, d);
    case RestoreStep(r) => hide RestoreAllowed, RestoreEffect, ResolvedReplayed, AmbiguousReplayed, InterruptedReplayed; RestoreIsAnswered(db, r);
    case _ =>
  }
}
