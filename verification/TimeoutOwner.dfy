/** When ValidateTimeoutEffectOwner lets a timeout kill through. */
module TimeoutOwner {
  import opened Domain
  import opened Tables
  import opened StopTransactions
  import opened Invariants
  import opened Steps
  import opened History
  import RowEffects
  import Runs
  import StopProofs
  import StopTargets

  /** A TIMEOUT stop of a live attempt whose kill has not been answered. */
  predicate UnansweredTimeout(stops: map<Id, Stop>, op: Id) {
    && op in stops && stops[op].target.timeout && stops[op].target.purpose.RunningAttemptStop?
    && stops[op].stage.StopRequested? && stops[op].resolution.InFlight?
  }

  predicate Eligible(a: Attempt) { a.disposition.None? || a.disposition == Some(AoWaitingInputObserved) }

  /** Nothing has been recorded about the attempt since the reservation, and no other attempt of
      the Pair is quarantined. */
  predicate Undisturbed(db: DB, t: StopTarget) {
    && t.lineage.Some? && t.lineage.value.attempt in db.attempts
    && Eligible(db.attempts[t.lineage.value.attempt])
    && forall a | a in db.attempts && a != t.lineage.value.attempt && OnPair(db.tasks, db.attempts, a, t.pair) :: !db.attempts[a].quarantined
  }

  predicate TimeoutsUndisturbed(db: DB) {
    forall op | op in db.stops && UnansweredTimeout(db.stops, op) :: Undisturbed(db, db.stops[op].target)
  }

  /** What the invariants say about the execution such a stop owns. */
  ghost predicate Held(db: DB, op: Id) {
    && op in db.stops
    && var t := db.stops[op].target;
    && t.restore.None? && t.purpose.RunningAttemptStop? && LiveStopHolds(db.tasks, db.attempts, t) && LineageMatches(db, t)
    && SessionIs(db.sessions, t.pair, t.session, t.gen) && db.sessions[t.pair].quarantined
    && !UnresolvedRestore(db.restores, t.pair) && !UnresolvedProvision(db.provisions, t.pair)
    && (forall k | k in db.stops && k != op && db.stops[k].target.pair == t.pair :: !PendingResolution(db.stops[k].resolution))
    && OneLane(db.tasks) && NumbersUnique(db.attempts)
    && (forall a | a in db.attempts :: db.attempts[a].lineage.task in db.tasks)
    && (forall d | d in db.dispatches && db.dispatches[d].bound.attempt == t.lineage.value.attempt ::
          db.dispatches[d].stage.SendConfirmed? && !db.dispatches[d].unknown)
    && exists d :: Dispatches(db.dispatches, d, t.lineage.value.attempt)
  }

  lemma TimeoutHeld(db: DB, op: Id)
    requires SagaInv(db) && UnansweredTimeout(db.stops, op)
    ensures Held(db, op)
  {
    var t := db.stops[op].target;
    assert LiveStopHolds(db.tasks, db.attempts, t);
    assert StopRefs(db.tasks, db.attempts, db.sessions, t);
    HeldAlone(db, op);
    HeldSent(db, t.lineage.value.attempt);
    HeldSession(db, t.lineage.value.attempt, t.pair);
  }

  lemma HeldAlone(db: DB, op: Id)
    requires SagaInv(db) && UnansweredTimeout(db.stops, op) && db.stops[op].target.restore.None?
    ensures forall k | k in db.stops && k != op && db.stops[k].target.pair == db.stops[op].target.pair :: !PendingResolution(db.stops[k].resolution)
    ensures !UnresolvedRestore(db.restores, db.stops[op].target.pair)
  {
    var pair := db.stops[op].target.pair;
    forall k | k in db.stops && k != op && db.stops[k].target.pair == pair ensures !PendingResolution(db.stops[k].resolution) {
      assert PendingStop(db.stops, op, pair);
      assert !PendingStop(db.stops, k, pair);
    }
    assert OwnerAdmits(db.restores, db.stops[op].target);
  }

  lemma SentParts(db: DB)
    requires SagaInv(db)
    ensures SendsConfirmed(db.tasks, db.attempts, db.dispatches) && DispatchRefs(db.tasks, db.attempts, db.dispatches)
    ensures DispatchComplete(db.attempts, db.dispatches)
  {}

  lemma HeldSent(db: DB, a: Id)
    requires SagaInv(db) && a in db.attempts && IsCurrent(db.tasks, db.attempts, a) && db.tasks[db.attempts[a].lineage.task].state.Running?
    ensures forall d | d in db.dispatches && db.dispatches[d].bound.attempt == a :: db.dispatches[d].stage.SendConfirmed? && !db.dispatches[d].unknown
    ensures exists d :: Dispatches(db.dispatches, d, a)
  {
    hide SagaInv;
    SentParts(db);
  }

  lemma HeldSession(db: DB, a: Id, pair: Id)
    requires SagaInv(db) && OnPair(db.tasks, db.attempts, a, pair) && db.attempts[a].ended.None? && db.attempts[a].quarantined
    ensures SessionIs(db.sessions, pair, db.attempts[a].lineage.session, db.attempts[a].lineage.gen) && db.sessions[pair].quarantined
    ensures !UnresolvedProvision(db.provisions, pair) && OneLane(db.tasks) && NumbersUnique(db.attempts)
    ensures forall a | a in db.attempts :: db.attempts[a].lineage.task in db.tasks
  {
    assert AttemptRefs(db.tasks, db.contracts, db.attempts);
    assert SessionInv(db.tasks, db.attempts, db.sessions) && ProvisionInv(db.provisions, db.sessions);
  }

  // --- every step leaves a held execution undisturbed ---------------------------------------------

  lemma PairUndisturbed(db: DB, s: PairOp, op: Id)
    requires Held(db, op) && Undisturbed(db, db.stops[op].target) && PairAllowed(db, s)
    ensures Undisturbed(PairEffect(db, s), db.stops[op].target)
  {}

  lemma DispatchUndisturbed(db: DB, s: DispatchOp, op: Id)
    requires Held(db, op) && Undisturbed(db, db.stops[op].target) && DispatchAllowed(db, s)
    ensures Undisturbed(DispatchEffect(db, s), db.stops[op].target)
  {}

  lemma ExecutionUndisturbed(db: DB, s: ExecutionOp, op: Id)
    requires Held(db, op) && Undisturbed(db, db.stops[op].target) && ExecutionAllowed(db, s)
    requires s.Terminal? ==> s.from.Dispatched?
    ensures Undisturbed(ExecutionEffect(db, s), db.stops[op].target)
  {}

  lemma RestoreUndisturbed(db: DB, s: RestoreOp, op: Id)
    requires Held(db, op) && Undisturbed(db, db.stops[op].target) && RestoreAllowed(db, s)
    ensures Undisturbed(RestoreEffect(db, s), db.stops[op].target)
  {}

  lemma OutcomeUndisturbed(db: DB, op: Id, other: Id, o: Outcome)
    requires Held(db, op) && Undisturbed(db, db.stops[op].target) && StopOutcomeAdmits(db, other, o) && other != op
    ensures Undisturbed(StopOutcomeCommit(db, other, o), db.stops[op].target)
  {
    assert db.stops[other].target.pair != db.stops[op].target.pair;
    var t := db.stops[other].target;
    if t.purpose.RunningAttemptStop? {
      assert OnPair(db.tasks, db.attempts, t.lineage.value.attempt, t.pair);
    }
  }

  lemma StopUndisturbed(db: DB, s: StopOp, op: Id)
    requires Held(db, op) && Undisturbed(db, db.stops[op].target) && StopAllowed(db, s)
    requires s.CommitOutcome? ==> s.op != op
    ensures Undisturbed(StopEffect(db, s), db.stops[op].target)
  {
    if s.CommitOutcome? {
      hide Held, Undisturbed, StopOutcomeAdmits, StopOutcomeCommit;
      OutcomeUndisturbed(db, op, s.op, s.outcome);
    }
  }

  /** A TIMEOUT is reserved on a clean Pair. */
  lemma ReservedUndisturbed(db: DB, s: Step)
    requires SessionInv(db.tasks, db.attempts, db.sessions) && Allowed(db, s) && s.StopStep? && s.stop.ReserveStop? && s.stop.target.timeout
    ensures Undisturbed(Effect(db, s), s.stop.target)
  {}

  lemma SessionsOf(db: DB)
    requires SagaInv(db)
    ensures SessionInv(db.tasks, db.attempts, db.sessions)
  {}

  lemma NewUndisturbed(db: DB, s: Step, op: Id)
    requires SagaInv(db) && Allowed(db, s) && op !in db.stops && op in Effect(db, s).stops && UnansweredTimeout(Effect(db, s).stops, op)
    ensures Undisturbed(Effect(db, s), Effect(db, s).stops[op].target)
  {
    hide SagaInv, SessionInv, Allowed, Effect, Undisturbed, RowEffects.PairRows, RowEffects.OperationRows, Kept;
    RowEffects.StepMoves(db, s);
    StopTargets.InsertedBy(db, s, Effect(db, s), op);
    SessionsOf(db);
    ReservedUndisturbed(db, s);
  }

  lemma StepUndisturbed(db: DB, s: Step, op: Id)
    requires SagaInv(db) && Allowed(db, s) && SagaStep(s) && UnansweredTimeout(db.stops, op) && Undisturbed(db, db.stops[op].target)
    requires op in Effect(db, s).stops && UnansweredTimeout(Effect(db, s).stops, op)
    ensures Undisturbed(Effect(db, s), db.stops[op].target)
  {
    hide SagaInv, Held, Undisturbed, UnansweredTimeout, TaskAllowed, PairAllowed, DispatchAllowed, ExecutionAllowed, RestoreAllowed, StopAllowed;
    hide TaskEffect, PairEffect, DispatchEffect, ExecutionEffect, RestoreEffect, StopEffect;
    TimeoutHeld(db, op);
    match s
    case TaskStep(t) => TaskUndisturbed(db, t, op);
    case PairStep(t) => PairUndisturbed(db, t, op);
    case DispatchStep(t) => DispatchUndisturbed(db, t, op);
    case ExecutionStep(t) => ExecutionUndisturbed(db, t, op);
    case StopStep(t) => StillUnanswered(db, t, op); StopUndisturbed(db, t, op);
    case RestoreStep(t) => RestoreUndisturbed(db, t, op);
  }

  lemma StillUnanswered(db: DB, s: StopOp, op: Id)
    requires StopAllowed(db, s) && op in StopEffect(db, s).stops && UnansweredTimeout(StopEffect(db, s).stops, op)
    ensures s.CommitOutcome? ==> s.op != op
  {
    if s.CommitOutcome? { StopProofs.OutcomeFramed(db, StopOutcomeCommit(db, s.op, s.outcome), s.op, s.outcome); }
  }

  lemma TaskUndisturbed(db: DB, s: TaskOp, op: Id)
    requires Held(db, op) && Undisturbed(db, db.stops[op].target) && TaskAllowed(db, s)
    ensures Undisturbed(TaskEffect(db, s), db.stops[op].target)
  {}

  lemma TimeoutsStayUndisturbed(db: DB, s: Step)
    requires SagaInv(db) && Allowed(db, s) && SagaStep(s) && TimeoutsUndisturbed(db)
    ensures TimeoutsUndisturbed(Effect(db, s))
  {
    hide SagaInv, Allowed, Effect, SagaStep, Undisturbed, LineagesKept;
    var e := Effect(db, s);
    StepHistory(db, s);
    forall op | op in e.stops && UnansweredTimeout(e.stops, op) ensures Undisturbed(e, e.stops[op].target) {
      if op in db.stops {
        assert StopForward(db.stops[op], e.stops[op]);
        StepUndisturbed(db, s, op);
      } else {
        NewUndisturbed(db, s, op);
      }
    }
  }

  lemma {:induction false} UndisturbedAlways(states: seq<DB>, steps: seq<Step>, i: nat)
    requires SagaRun(states, steps) && i <= |steps|
    ensures TimeoutsUndisturbed(states[i])
  {
    hide Allowed, Effect, SagaInv, SagaStep, TimeoutsUndisturbed;
    if i == 0 {
      NoTimeouts();
    } else {
      assert StepAt(states, steps, i - 1);
      UndisturbedAlways(states, steps, i - 1);
      Runs.SagaAlways(states, steps, i - 1);
      TimeoutsStayUndisturbed(states[i - 1], steps[i - 1]);
    }
  }

  lemma NoTimeouts()
    ensures TimeoutsUndisturbed(EMPTY_DB)
  {}

  // --- the pre-effect check -----------------------------------------------------------------------

  /** Of all the joined checks of ValidateTimeoutEffectOwner only one can refuse a TIMEOUT stop
      that is still unanswered: the Pair has had an unknown delivery. */
  lemma TimeoutOwnerExact(states: seq<DB>, steps: seq<Step>, i: nat, op: Id)
    requires SagaRun(states, steps) && i <= |steps|
    ensures TimeoutEffectOwner(states[i], op) <==>
      UnansweredTimeout(states[i].stops, op) && !UnknownDeliveryOn(states[i].dispatches, states[i].stops[op].target.pair)
  {
    hide Allowed, Effect, SagaInv, SagaStep;
    Runs.SagaAlways(states, steps, i);
    UndisturbedAlways(states, steps, i);
    if UnansweredTimeout(states[i].stops, op) {
      TimeoutHeld(states[i], op);
      OwnerIfQuiet(states[i], op);
    }
  }

  lemma OwnerIfQuiet(db: DB, op: Id)
    requires UnansweredTimeout(db.stops, op) && Held(db, op) && Undisturbed(db, db.stops[op].target)
    ensures TimeoutEffectOwner(db, op) <==> !UnknownDeliveryOn(db.dispatches, db.stops[op].target.pair)
  {
    var a := db.stops[op].target.lineage.value.attempt;
    var d :| Dispatches(db.dispatches, d, a);
    assert db.dispatches[d].bound.attempt == a;
  }

  lemma UnknownStays(db: DB, e: DB, pair: Id)
    requires OperationsKept(db, e) && UnknownDeliveryOn(db.dispatches, pair)
    ensures UnknownDeliveryOn(e.dispatches, pair)
  {
    var d :| d in db.dispatches && db.dispatches[d].bound.pair == pair && db.dispatches[d].unknown;
    assert DispatchForward(db.dispatches[d], e.dispatches[d]);
  }

  lemma UnknownRefuses(db: DB, pair: Id, op: Id)
    requires UnknownDeliveryOn(db.dispatches, pair)
    ensures op in db.stops && db.stops[op].target.pair == pair ==> !TimeoutEffectOwner(db, op)
  {
    hide SessionIs, LineageMatches, CurrentOpen;
  }

  /** An unknown delivery is never forgotten: whatever is cleared later, every timeout kill on
      that Pair is refused from then on. */
  lemma {:induction false} UnknownDeliveryRefusesTimeouts(states: seq<DB>, steps: seq<Step>, i: nat, j: nat, pair: Id, op: Id)
    requires Run(states, steps) && i <= j <= |steps| && UnknownDeliveryOn(states[i].dispatches, pair)
    ensures UnknownDeliveryOn(states[j].dispatches, pair)
    ensures op in states[j].stops && states[j].stops[op].target.pair == pair ==> !TimeoutEffectOwner(states[j], op)
    decreases j - i
  {
    hide Allowed, Effect, LineagesKept, OperationsKept, UnknownDeliveryOn, TimeoutEffectOwner;
    if i < j {
      assert StepAt(states, steps, j - 1);
      UnknownDeliveryRefusesTimeouts(states, steps, i, j - 1, pair, op);
      StepHistory(states[j - 1], steps[j - 1]);
      UnknownStays(states[j - 1], states[j], pair);
    }
    UnknownRefuses(states[j], pair, op);
  }
}
