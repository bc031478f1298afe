/** Which in-flight stops can still be given an outcome, and which never will be. */
module StopTargets {
  import opened Domain
  import opened Tables
  import opened StopTransactions
  import opened ClearanceTransactions
  import opened DispatchTransactions
  import opened Invariants
  import opened History
  import opened Steps
  import RowEffects
  import Runs
  import StopTheorems

  // --- the generation of a Pair's runtime --------------------------------------------------

  predicate SameRuntime(db: DB, e: DB, pair: Id) {
    pair in db.sessions ==> pair in e.sessions && e.sessions[pair].session == db.sessions[pair].session && e.sessions[pair].gen == db.sessions[pair].gen
  }

  /** ConfirmPairRestore is the only transaction that changes a generation. */
  predicate Regenerates(db: DB, s: Step, pair: Id) {
    && s.RestoreStep? && s.restore.ConfirmRestore?
    && s.restore.op in db.restores && db.restores[s.restore.op].tuple.pair == pair
  }

  lemma GenerationChangesOnConfirm(db: DB, s: Step, e: DB, pair: Id)
    requires RowEffects.Finds(db, s) && RowEffects.PairRows(db, s, e) && !Regenerates(db, s, pair)
    ensures SameRuntime(db, e, pair)
  {
    hide RowEffects.MoreRisk;
    assert RowEffects.Row(e.sessions, pair) == RowEffects.SessionAfter(db, s, pair);
  }

  /** The only unresolved restore beside a pending stop is the one that claimed it. */
  lemma PendingStopExcludesRestores(db: DB, op: Id)
    requires Inv(db) && op in db.stops && PendingResolution(db.stops[op].resolution)
    ensures forall q | Unresolved(db.restores, q, db.stops[op].target.pair) ::
              db.stops[op].target.restore == Some(q) && db.restores[q].resolution.CleanupClaimed?
  {
    StopTheorems.PendingStop1(db, op);
    assert RestoreInv(db.restores, db.sessions);
  }

  /** While a stop is pending, its Pair's generation does not change. */
  lemma PendingStopPinsRuntime(db: DB, s: Step, op: Id)
    requires Inv(db) && RowEffects.Finds(db, s)
    requires op in db.stops && PendingResolution(db.stops[op].resolution)
    ensures !Regenerates(db, s, db.stops[op].target.pair)
  {
    hide Inv;
    PendingStopExcludesRestores(db, op);
    assert Regenerates(db, s, db.stops[op].target.pair) ==> Unresolved(db.restores, s.restore.op, db.stops[op].target.pair);
  }

  // --- which transactions insert stops --------------------------------------------------------

  /** A stop is inserted by its reservation or with the cleanup claim of a restore. */
  lemma InsertedBy(db: DB, s: Step, e: DB, op: Id)
    requires RowEffects.OperationRows(db, s, e) && op !in db.stops && op in e.stops
    ensures (s.StopStep? && s.stop.ReserveStop? && s.stop.op == op && e.stops[op].target == s.stop.target)
         || (s.RestoreStep? && s.restore.ClaimCleanup? && s.restore.op == op && e.stops[op].target == s.restore.target)
  {
    assert RowEffects.Row(e.stops, op) == RowEffects.StopAfter(db, s, op);
  }

  // --- unlinked stops aim at the current runtime --------------------------------------------

  predicate TargetCurrent(db: DB, op: Id) {
    op in db.stops && db.stops[op].resolution.InFlight? && db.stops[op].target.restore.None?
    ==> db.stops[op].target.pair in db.sessions && db.sessions[db.stops[op].target.pair].gen == db.stops[op].target.gen
  }

  /** A stop that is new in e is a fresh reservation of the current runtime, or is linked. */
  lemma NewStopIsCurrent(db: DB, s: Step, e: DB, op: Id)
    requires RowEffects.Moves(db, s, e) && op !in db.stops
    ensures TargetCurrent(e, op)
  {
    hide RowEffects.PairRows, RowEffects.OperationRows, Kept;
    if op in e.stops {
      InsertedBy(db, s, e, op);
      GenerationChangesOnConfirm(db, s, e, e.stops[op].target.pair);
    }
  }

  lemma TargetStaysCurrent(db: DB, s: Step, e: DB, op: Id)
    requires Inv(db) && RowEffects.Moves(db, s, e) && TargetCurrent(db, op)
    ensures TargetCurrent(e, op)
  {
    hide Inv, LineagesKept, RowEffects.PairRows, RowEffects.OperationRows, RowEffects.Finds;
    if op !in db.stops {
      NewStopIsCurrent(db, s, e, op);
    } else {
      assert StopForward(db.stops[op], e.stops[op]);
      if db.stops[op].resolution.InFlight? {
        PendingStopPinsRuntime(db, s, op);
        GenerationChangesOnConfirm(db, s, e, db.stops[op].target.pair);
      }
    }
  }

  lemma {:induction false} TargetsCurrentAlways(states: seq<DB>, steps: seq<Step>, i: nat, op: Id)
    requires Run(states, steps) && i <= |steps|
    ensures TargetCurrent(states[i], op)
  {
    hide Inv, Allowed, Effect, RowEffects.Moves;
    if i > 0 {
      assert StepAt(states, steps, i - 1);
      TargetsCurrentAlways(states, steps, i - 1, op);
      Runs.Always(states, steps, i - 1);
      RowEffects.StepMoves(states[i - 1], steps[i - 1]);
      TargetStaysCurrent(states[i - 1], steps[i - 1], states[i], op);
    }
  }

  // --- which outcomes commit -------------------------------------------------------------------

  /** A maintenance stop linked to a restore whose new generation was observed but never
      confirmed: the session row still shows the old generation. */
  predicate Unreachable(db: DB, op: Id) {
    && op in db.stops
    && var t := db.stops[op].target;
    && t.restore.Some? && t.purpose.PairMaintenance?
    && t.pair in db.sessions && db.sessions[t.pair].gen != t.gen
  }

  /** For the row of an in-flight stop, CommitStopOutcome commits every outcome that fits it,
      except when the stop aims at a generation that no session row carries. */
  lemma OutcomeCommits(states: seq<DB>, steps: seq<Step>, i: nat, op: Id, o: Outcome)
    requires SagaRun(states, steps) && i <= |steps| && op in states[i].stops
    ensures StopOutcomeAdmits(states[i], op, o) <==> OutcomeFits(states[i].stops[op], o) && !Unreachable(states[i], op)
  {
    hide Inv, SagaInv, Allowed, Effect;
    Runs.SagaAlways(states, steps, i);
    Runs.Always(states, steps, i);
    TargetsCurrentAlways(states, steps, i, op);
    OutcomeCommits1(states[i], op, o);
  }

  lemma OutcomeCommits1(db: DB, op: Id, o: Outcome)
    requires SagaInv(db) && Inv(db) && TargetCurrent(db, op) && op in db.stops
    ensures StopOutcomeAdmits(db, op, o) <==> OutcomeFits(db.stops[op], o) && !Unreachable(db, op)
  {
    hide Inv, SagaInv, OutcomeFits;
    if db.stops[op].target.purpose.RunningAttemptStop? {
      StopTheorems.LiveStopCloses(db, op, o);
    } else if db.stops[op].resolution.InFlight? {
      StopTheorems.PendingStop1(db, op);
      StopTheorems.StopRow1(db, op);
      StopAuditHolds(db, op);
    } else {
      FitsInFlight(db.stops[op], o);
    }
  }

  lemma FitsInFlight(stop: Stop, o: Outcome)
    requires !stop.resolution.InFlight?
    ensures !OutcomeFits(stop, o)
  {}

  lemma StopAuditHolds(db: DB, op: Id)
    requires Inv(db) && op in db.stops
    ensures StopAudit(db, db.stops[op].target)
  {
    StopTheorems.StopRow1(db, op);
    assert AttemptRefs(db.tasks, db.contracts, db.attempts);
  }

  // --- the stop that nothing can settle -------------------------------------------------------------

  /** The kill of an unreachable stop was accepted, so no sweep may reclassify it either. */
  predicate Stranded(db: DB, op: Id) {
    && Unreachable(db, op)
    && db.stops[op].stage.StopCallSucceeded? && db.stops[op].resolution.InFlight?
  }

  /** The transactions that could write the row of the stop. */
  predicate Addresses(s: Step, op: Id) {
    && s.StopStep?
    && match s.stop
       case ReserveStop(o, _) => o == op
       case CallAccepted(o, _, _) => o == op
       case CommitOutcome(o, _) => o == op
       case ClassifyAbandoned(o, _, _, _) => o == op
       case AcceptRisk(d) => d.stop == op
  }

  lemma StrandedRejects(db: DB, s: Step, op: Id)
    requires Stranded(db, op) && RowEffects.Finds(db, s)
    ensures !Addresses(s, op)
  {}

  lemma RowUnaddressed(db: DB, s: Step, e: DB, op: Id)
    requires RowEffects.Finds(db, s) && RowEffects.OperationRows(db, s, e) && op in db.stops && !Addresses(s, op)
    ensures op in e.stops && e.stops[op] == db.stops[op]
  {
    assert RowEffects.Row(e.stops, op) == RowEffects.StopAfter(db, s, op);
  }

  lemma StrandedStays(db: DB, s: Step, e: DB, op: Id)
    requires Inv(db) && Stranded(db, op) && RowEffects.Moves(db, s, e)
    ensures Stranded(e, op) && e.stops[op] == db.stops[op]
  {
    hide Inv, Kept, RowEffects.PairRows, RowEffects.OperationRows, RowEffects.Finds;
    StrandedRejects(db, s, op);
    RowUnaddressed(db, s, e, op);
    PendingStopPinsRuntime(db, s, op);
    GenerationChangesOnConfirm(db, s, e, db.stops[op].target.pair);
  }

  lemma StrandedLocksPair(db: DB, op: Id, x: Allocation, rq: Request)
    requires Inv(db) && Stranded(db, op)
    ensures var pair := db.stops[op].target.pair;
      && UnresolvedRestore(db.restores, pair)
      && (x.task in db.tasks && db.tasks[x.task].pair == pair ==> !PrepareAdmits(db, x.task, x.contract, x.attempt, x.op, x.session, x.gen))
      && (rq.pair == pair ==> !ClearAdmits(db, rq))
  {
    hide Inv;
    StopTheorems.PendingStop1(db, op);
  }

  /** Whatever any later run does, a stranded stop stays in flight, its restore unresolved, and
      the Pair neither dispatches nor is cleared again. */
  lemma {:induction false} StrandedForever(states: seq<DB>, steps: seq<Step>, i: nat, j: nat, op: Id, x: Allocation, rq: Request)
    requires Run(states, steps) && i <= j <= |steps| && Stranded(states[i], op)
    ensures Stranded(states[j], op) && states[j].stops[op] == states[i].stops[op]
    ensures var pair := states[i].stops[op].target.pair;
      && UnresolvedRestore(states[j].restores, pair)
      && (x.task in states[j].tasks && states[j].tasks[x.task].pair == pair ==>
            !PrepareAdmits(states[j], x.task, x.contract, x.attempt, x.op, x.session, x.gen))
      && (rq.pair == pair ==> !ClearAdmits(states[j], rq))
    decreases j - i
  {
    hide Inv, Allowed, Effect, RowEffects.Moves;
    Runs.Always(states, steps, j);
    if i < j {
      assert StepAt(states, steps, j - 1);
      StrandedForever(states, steps, i, j - 1, op, x, rq);
      Runs.Always(states, steps, j - 1);
      RowEffects.StepMoves(states[j - 1], steps[j - 1]);
      StrandedStays(states[j - 1], steps[j - 1], states[j], op);
    }
    StrandedLocksPair(states[j], op, x, rq);
  }

  // --- a run that strands a stop ------------------------------------------------------------------

  const STRANDED_TARGET := StopTarget(PairMaintenance, 7, None, 70, 2, Some(11), false, 0)

  /** A resume whose answer was lost did start generation 2; the operator who claims the
      restore sees it alive and stops it. */
  const STRANDING: seq<Step> := [
    PairStep(ReserveProvision(10, 7)),
    PairStep(ConfirmProvision(10, 7, Session(70, 1, SessionTerminated, false))),
    RestoreStep(ReserveRestore(11, RestoreTuple(5, 7, 70, 1, 0))),
    RestoreStep(UnknownRestore(11)),
    RestoreStep(ClaimRecovery(11, 7, 70, 1, 9, 0)),
    RestoreStep(ClaimCleanup(12, STRANDED_TARGET, 9, Some(Observation(70, 2, false)))),
    StopStep(CallAccepted(12, 10, 20))]

  const STRANDING_RESTORE := Restore(RestoreTuple(5, 7, 70, 1, 0), None, None, RestoreRequested, RestoreInFlight, None, None, None, None, 0)

  lemma StrandingProvisioned() returns (a: DB, b: DB)
    ensures Chain(EMPTY_DB, STRANDING[0], a) && Chain(a, STRANDING[1], b)
    ensures b == EMPTY_DB.(
      sessions := map[7 := Session(70, 1, SessionTerminated, false)],
      provisions := map[10 := Provision(7, ProvisionConfirmed, Some(70))], log := b.log)
  {
    a := Effect(EMPTY_DB, STRANDING[0]);
    b := Effect(a, STRANDING[1]);
  }

  lemma StrandingRestored(b: DB) returns (c: DB)
    requires b == EMPTY_DB.(
      sessions := map[7 := Session(70, 1, SessionTerminated, false)],
      provisions := map[10 := Provision(7, ProvisionConfirmed, Some(70))], log := b.log)
    ensures Chain(b, STRANDING[2], c)
    ensures c.restores == map[11 := STRANDING_RESTORE] && c.sessions == map[7 := Session(70, 1, SessionTerminated, true)]
    ensures c.stops == map[] && c.attempts == map[] && c.budgets == map[]
  {
    c := Effect(b, STRANDING[2]);
    assert c.attempts == map[];
  }

  lemma StrandingClaimed(c: DB) returns (d: DB, e: DB)
    requires c.restores == map[11 := STRANDING_RESTORE] && c.sessions == map[7 := Session(70, 1, SessionTerminated, true)]
    requires c.stops == map[] && c.attempts == map[] && c.budgets == map[]
    ensures Chain(c, STRANDING[3], d) && Chain(d, STRANDING[4], e)
    ensures e.restores == map[11 := STRANDING_RESTORE.(resolution := RecoveryClaimed, principal := Some(9), claimedAt := Some(0), version := 2)]
    ensures e.sessions == c.sessions && e.stops == map[] && e.attempts == map[] && e.budgets == map[]
  {
    d := Effect(c, STRANDING[3]);
    e := Effect(d, STRANDING[4]);
  }

  lemma StrandingStopped(e: DB) returns (f: DB)
    requires e.restores == map[11 := STRANDING_RESTORE.(resolution := RecoveryClaimed, principal := Some(9), claimedAt := Some(0), version := 2)]
    requires e.sessions == map[7 := Session(70, 1, SessionTerminated, true)] && e.stops == map[]
    ensures Chain(e, STRANDING[5], f)
    ensures f.restores == map[11 := STRANDING_RESTORE.(resolution := CleanupClaimed, principal := Some(9), claimedAt := Some(0), version := 3)]
    ensures f.sessions == e.sessions && f.stops == map[12 := NewStop(STRANDED_TARGET)]
  {
    f := Effect(e, STRANDING[5]);
  }

  lemma StrandingAccepted(f: DB) returns (g: DB)
    requires f.restores == map[11 := STRANDING_RESTORE.(resolution := CleanupClaimed, principal := Some(9), claimedAt := Some(0), version := 3)]
    requires f.sessions == map[7 := Session(70, 1, SessionTerminated, true)] && f.stops == map[12 := NewStop(STRANDED_TARGET)]
    ensures Chain(f, STRANDING[6], g) && Stranded(g, 12)
  {
    g := Effect(f, STRANDING[6]);
  }

  /** The first five steps are a run. */
  lemma StrandingRun(a: DB, b: DB, c: DB, d: DB, e: DB) returns (states: seq<DB>)
    requires Chain(EMPTY_DB, STRANDING[0], a) && Chain(a, STRANDING[1], b) && Chain(b, STRANDING[2], c)
    requires Chain(c, STRANDING[3], d) && Chain(d, STRANDING[4], e)
    ensures states == [EMPTY_DB, a, b, c, d, e] && SagaRun(states, STRANDING[..5])
  {
    hide Allowed, Effect;
    forall k: nat | k < 5 ensures STRANDING[..k] + [STRANDING[k]] == STRANDING[..k + 1] {}
    states := [EMPTY_DB];
    Runs.Extend(states, STRANDING[..0], STRANDING[0], a);
    Runs.Extend(states + [a], STRANDING[..1], STRANDING[1], b);
    Runs.Extend(states + [a] + [b], STRANDING[..2], STRANDING[2], c);
    Runs.Extend(states + [a] + [b] + [c], STRANDING[..3], STRANDING[3], d);
    Runs.Extend(states + [a] + [b] + [c] + [d], STRANDING[..4], STRANDING[4], e);
    states := [EMPTY_DB] + [a] + [b] + [c] + [d] + [e];
  }

  /** Stranding is reached by saga steps alone. */
  lemma StrandingHappens() returns (states: seq<DB>)
    ensures SagaRun(states, STRANDING) && Stranded(states[|STRANDING|], 12)
  {
    hide Allowed, Effect;
    var a, b := StrandingProvisioned();
    var c := StrandingRestored(b);
    var d, e := StrandingClaimed(c);
    var f := StrandingStopped(e);
    var g := StrandingAccepted(f);
    states := StrandingRun(a, b, c, d, e);
    Runs.Extend(states, STRANDING[..5], STRANDING[5], f);
    Runs.Extend(states + [f], STRANDING[..6], STRANDING[6], g);
    assert STRANDING[..6] + [STRANDING[6]] == STRANDING;
    states := states + [f] + [g];
  }
}
