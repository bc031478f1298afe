/** The transactions of a recovery sweep, and what they can leave behind. */
module ScanSteps {
  import opened Domain
  import opened Tables
  import opened DispatchTransactions
  import opened RecoveryTransactions
  import opened StopTransactions
  import opened Invariants
  import opened History
  import opened Steps
  import opened Runs
  import Admission
  import RowEffects
  import SagaProofs
  import StepProofs
  import StopProofs
  import StopTargets
  import StopTheorems

  // --- leftovers ------------------------------------------------------------------------

  predicate RestoreLeft(db: DB, r: Id) {
    r in db.restores && db.restores[r].stage.RestoreRequested? && db.restores[r].resolution.RestoreInFlight?
  }

  predicate ProvisionLeft(db: DB, p: Id) { p in db.provisions && db.provisions[p].stage.ProvisionRequested? }

  /** An unresolved send intent on the current attempt of a DISPATCHED task. */
  predicate SendLeft(db: DB, d: Id) {
    && d in db.dispatches && db.dispatches[d].stage.SendRequested? && !db.dispatches[d].unknown
    && IsCurrent(db.tasks, db.attempts, db.dispatches[d].bound.attempt)
    && db.tasks[db.attempts[db.dispatches[d].bound.attempt].lineage.task].state.Dispatched?
  }

  /** A BLOCKED task with an open current attempt. */
  predicate BlockedLeft(db: DB, a: Id) {
    IsCurrent(db.tasks, db.attempts, a) && db.attempts[a].ended.None? && db.tasks[db.attempts[a].lineage.task].state.Blocked?
  }

  predicate StopLeft(db: DB, o: Id) { o in db.stops && db.stops[o].resolution.InFlight? }

  /** e leaves behind nothing that db did not. */
  ghost predicate LeavesLess(db: DB, e: DB) {
    && (forall r :: RestoreLeft(e, r) ==> RestoreLeft(db, r)) && (forall p :: ProvisionLeft(e, p) ==> ProvisionLeft(db, p))
    && (forall d :: SendLeft(e, d) ==> SendLeft(db, d)) && (forall a :: BlockedLeft(e, a) ==> BlockedLeft(db, a))
    && (forall o :: StopLeft(e, o) ==> StopLeft(db, o))
    && e.stops.Keys <= db.stops.Keys && e.attempts.Keys <= db.attempts.Keys
  }

  /** Attempts keep their lineage and stay closed; stops keep their target. */
  predicate OwnersKept(db: DB, e: DB) {
    && (forall a | a in db.attempts ::
          && a in e.attempts && e.attempts[a].lineage == db.attempts[a].lineage
          && (db.attempts[a].ended.Some? ==> e.attempts[a].ended.Some?))
    && forall o | o in db.stops :: o in e.stops && e.stops[o].target == db.stops[o].target
  }

  /** A stop that nothing can settle, with its deadline passed. */
  predicate Overdue(db: DB, o: Id, now: Time) {
    StopTargets.Stranded(db, o) && db.stops[o].deadline.Some? && db.stops[o].deadline.value <= now
  }

  ghost predicate StrandedKept(db: DB, e: DB) {
    forall o, now :: Overdue(db, o, now) ==> Overdue(e, o, now)
  }

  predicate StagesKept(db: DB, e: DB) {
    e.dispatches.Keys == db.dispatches.Keys && forall d | d in db.dispatches :: e.dispatches[d].stage == db.dispatches[d].stage
  }

  /** No Pair changes its session or generation. */
  ghost predicate RuntimesKept(db: DB, e: DB) { forall pair :: StopTargets.SameRuntime(db, e, pair) }

  /** Closed attempts keep their end, answered provisionings and restores and settled stops their rows. */
  predicate DecisionsKept(db: DB, e: DB) {
    && (forall a | a in db.attempts && db.attempts[a].ended.Some? ::
          a in e.attempts && e.attempts[a].ended == db.attempts[a].ended && e.attempts[a].disposition == db.attempts[a].disposition)
    && (forall p | p in db.provisions && !ProvisionLeft(db, p) :: p in e.provisions && e.provisions[p] == db.provisions[p])
    && (forall r | r in db.restores && !RestoreLeft(db, r) :: r in e.restores && e.restores[r] == db.restores[r])
    && forall o | o in db.stops && !StopLeft(db, o) :: o in e.stops && e.stops[o] == db.stops[o]
  }

  /** What was left behind and is no longer was decided as unknown, failed or escalated. */
  ghost predicate LeftDecided(db: DB, e: DB) {
    && (forall r :: RestoreLeft(db, r) && !RestoreLeft(e, r) ==> r in e.restores && e.restores[r].resolution == RestoreOutcomeUnknown)
    && (forall p :: ProvisionLeft(db, p) && !ProvisionLeft(e, p) ==> p in e.provisions && e.provisions[p].stage == ProvisionFailed)
    && forall a :: BlockedLeft(db, a) && !BlockedLeft(e, a) ==>
         && a in e.attempts && e.attempts[a].ended.Some? && e.attempts[a].disposition == Some(AoBlockedEscalated)
  }

  /** What a production run keeps, and a sweep never breaks. */
  ghost predicate SagaKept(db: DB, e: DB) { SagaInv(db) ==> SagaInv(e) }

  /** What every step of a sweep does to what was left behind. */
  ghost predicate Shrinks(db: DB, e: DB) {
    LeavesLess(db, e) && OwnersKept(db, e) && StrandedKept(db, e) && StagesKept(db, e) && RuntimesKept(db, e) && SagaKept(db, e)
    && DecisionsKept(db, e) && LeftDecided(db, e)
  }

  lemma ShrinksSelf(db: DB)
    ensures Shrinks(db, db)
  {
    hide SagaInv;
  }

  lemma ShrinksTwice(a: DB, b: DB, c: DB)
    requires Shrinks(a, b) && Shrinks(b, c)
    ensures Shrinks(a, c)
  {
    hide SagaInv, DecisionsKept, LeftDecided;
    DecidedTwice(a, b, c);
    forall pair ensures StopTargets.SameRuntime(a, c, pair) {
      assert StopTargets.SameRuntime(a, b, pair) && StopTargets.SameRuntime(b, c, pair);
    }
  }

  lemma DecidedTwice(a: DB, b: DB, c: DB)
    requires DecisionsKept(a, b) && DecisionsKept(b, c) && LeftDecided(a, b) && LeftDecided(b, c) && OwnersKept(a, b)
    ensures DecisionsKept(a, c) && LeftDecided(a, c)
  {}

  predicate SameStops(db: DB, e: DB) { e.stops == db.stops }

  predicate OtherStopsKept(db: DB, e: DB, op: Id) {
    && e.stops.Keys == db.stops.Keys
    && forall o | o in db.stops && o != op :: e.stops[o] == db.stops[o]
  }

  // --- the steps of a sweep ----------------------------------------------------------------

  predicate ScanMove(s: Step) {
    match s
    case TaskStep(_) => false
    case PairStep(t) => t.FailProvision? || t.AppendAudit?
    case DispatchStep(t) => t.Hold? || t.Reject? || t.ResolveHold? || t.UnknownDelivery?
    case ExecutionStep(t) => t.Terminal? ==> t.from.Dispatched?
    case StopStep(t) => t.CommitOutcome? || t.ClassifyAbandoned?
    case RestoreStep(t) => t.ClassifyInterrupted?
  }

  lemma PairShrinks(db: DB, s: PairOp)
    requires PairAllowed(db, s) && ScanMove(PairStep(s))
    ensures LeavesLess(db, PairEffect(db, s))
  {}

  lemma DispatchShrinks(db: DB, s: DispatchOp)
    requires DispatchAllowed(db, s) && ScanMove(DispatchStep(s))
    ensures LeavesLess(db, DispatchEffect(db, s))
  {}

  lemma ExecutionShrinks(db: DB, s: ExecutionOp)
    requires ExecutionAllowed(db, s)
    ensures LeavesLess(db, ExecutionEffect(db, s))
  {}

  lemma CloseLiveShrinks(db: DB, op: Id, t: StopTarget, o: Outcome)
    requires CloseLiveAdmits(db, t)
    ensures LeavesLess(db, CloseLive(db, op, t, o))
  {}

  lemma SettleShrinks(db: DB, op: Id, o: Outcome)
    requires op in db.stops && OutcomeFits(db.stops[op], o)
    ensures LeavesLess(db, db.(stops := db.stops[op := Settle(db.stops[op], o)], log := db.log + [OutcomeEvent(op, db.stops[op], o)]))
  {}

  lemma LeavesLessTwice(a: DB, b: DB, c: DB)
    requires LeavesLess(a, b) && LeavesLess(b, c)
    ensures LeavesLess(a, c)
  {}

  lemma TouchRuntimeShrinks(db: DB, t: StopTarget, o: Outcome)
    requires t.pair in db.sessions
    ensures LeavesLess(db, TouchRuntime(db, t, o))
  {
    hide TouchRuntime;
    StopProofs.TouchRuntimeFrame(db, t, o);
  }

  lemma OutcomeShrinks(db: DB, op: Id, o: Outcome)
    requires StopOutcomeAdmits(db, op, o)
    ensures LeavesLess(db, StopOutcomeCommit(db, op, o))
  {
    hide LeavesLess;
    var stop := db.stops[op];
    var marked := db.(stops := db.stops[op := Settle(stop, o)], log := db.log + [OutcomeEvent(op, stop, o)]);
    SettleShrinks(db, op, o);
    if stop.target.purpose.RunningAttemptStop? {
      CloseLiveShrinks(marked, op, stop.target, o);
    } else {
      TouchRuntimeShrinks(marked, stop.target, o);
    }
    LeavesLessTwice(db, marked, StopOutcomeCommit(db, op, o));
  }

  lemma StopShrinks(db: DB, s: StopOp)
    requires StopAllowed(db, s) && ScanMove(StopStep(s))
    ensures LeavesLess(db, StopEffect(db, s))
  {
    if s.CommitOutcome? { OutcomeShrinks(db, s.op, s.outcome); }
  }

  lemma RestoreShrinks(db: DB, s: RestoreOp)
    requires RestoreAllowed(db, s) && ScanMove(RestoreStep(s))
    ensures LeavesLess(db, RestoreEffect(db, s))
  {}

  // --- live stops belong to attempts past DISPATCHED ------------------------------------------

  /** The current attempt of a DISPATCHED task. */
  predicate Prompting(db: DB, a: Id) {
    IsCurrent(db.tasks, db.attempts, a) && db.tasks[db.attempts[a].lineage.task].state.Dispatched?
  }

  /** No live stop names such an attempt. */
  predicate LiveStopsLater(db: DB) {
    forall o | o in db.stops && db.stops[o].target.purpose.RunningAttemptStop? && db.stops[o].target.lineage.Some? ::
      !Prompting(db, db.stops[o].target.lineage.value.attempt)
  }

  predicate StopNames(t: StopTarget, a: Id) {
    t.purpose.RunningAttemptStop? && t.lineage.Some? && t.lineage.value.attempt == a
  }

  /** An in-flight stop without a restore aims at the current generation. */
  ghost predicate TargetsCurrent(db: DB) { forall op :: StopTargets.TargetCurrent(db, op) }

  /** What every run keeps, of production steps or not. */
  ghost predicate ScanInv(db: DB) { Inv(db) && LiveStopsLater(db) && TargetsCurrent(db) }

  /** No attempt of db becomes the current one of a DISPATCHED task. */
  predicate PromptsKept(db: DB, e: DB) { forall a | a in db.attempts :: Prompting(e, a) ==> Prompting(db, a) }

  /** The attempt that PrepareBoundDispatch makes current is a new one. */
  lemma StepPrompts(db: DB, s: Step)
    requires Inv(db) && Allowed(db, s)
    ensures PromptsKept(db, Effect(db, s))
  {
    hide Inv, Allowed, Effect, RowEffects.PairRows, RowEffects.OperationRows, RowEffects.LogAfter, OperationsKept;
    var e := Effect(db, s);
    RowEffects.StepRows(db, s);
    StepHistory(db, s);
    RowEffects.StepFinds(db, s);
    forall a | a in db.attempts && Prompting(e, a) ensures Prompting(db, a) {
      Admission.AttemptFacts(db, a);
      var t := db.attempts[a].lineage.task;
      assert AttemptForward(db.attempts[a], e.attempts[a]) && TaskForward(db.tasks[t], e.tasks[t]);
      assert RowEffects.Row(e.tasks, t) == RowEffects.TaskAfter(db, s, t);
    }
  }

  /** A live stop is reserved on a RUNNING task. */
  lemma NewLiveStop(db: DB, s: Step, e: DB, o: Id)
    requires RowEffects.Moves(db, s, e) && o in e.stops && o !in db.stops
    ensures var t := e.stops[o].target;
      t.purpose.RunningAttemptStop? ==> t.lineage.Some? && t.lineage.value.attempt in db.attempts && !Prompting(db, t.lineage.value.attempt)
  {
    hide Kept, RowEffects.PairRows, RowEffects.OperationRows;
    StopTargets.InsertedBy(db, s, e, o);
  }

  lemma LaterStays(db: DB, s: Step, e: DB)
    requires Inv(db) && LiveStopsLater(db) && RowEffects.Moves(db, s, e) && PromptsKept(db, e)
    ensures LiveStopsLater(e)
  {
    hide Inv, LineagesKept, Prompting, RowEffects.Finds, RowEffects.PairRows, RowEffects.OperationRows;
    forall o | o in e.stops && e.stops[o].target.purpose.RunningAttemptStop? && e.stops[o].target.lineage.Some?
      ensures !Prompting(e, e.stops[o].target.lineage.value.attempt)
    {
      if o in db.stops {
        assert StopForward(db.stops[o], e.stops[o]);
        StoppedAttemptExists(db, o);
      } else {
        NewLiveStop(db, s, e, o);
      }
    }
  }

  /** Wherever a run stands, a sweep may start. */
  lemma {:induction false} SweepMayStart(states: seq<DB>, steps: seq<Step>, i: nat)
    requires Run(states, steps) && i <= |steps|
    ensures ScanInv(states[i])
  {
    hide Inv, Allowed, Effect, LiveStopsLater, StopTargets.TargetCurrent, RowEffects.Moves, PromptsKept;
    Always(states, steps, i);
    forall op ensures StopTargets.TargetCurrent(states[i], op) { StopTargets.TargetsCurrentAlways(states, steps, i, op); }
    if i == 0 {
      NothingStopped();
    } else {
      SweepMayStart(states, steps, i - 1);
      assert StepAt(states, steps, i - 1);
      RowEffects.StepMoves(states[i - 1], steps[i - 1]);
      StepPrompts(states[i - 1], steps[i - 1]);
      LaterStays(states[i - 1], steps[i - 1], states[i]);
    }
  }

  lemma NothingStopped()
    ensures LiveStopsLater(EMPTY_DB)
  {}

  lemma StoppedAttemptExists(db: DB, o: Id)
    requires Inv(db) && o in db.stops
    ensures db.stops[o].target.lineage.Some? ==> db.stops[o].target.lineage.value.attempt in db.attempts
  {
    hide Inv;
    StopTheorems.StopRow1(db, o);
  }

  /** Targets, runtimes, owners and stranded stops stay as they are. */
  lemma TargetsStay(db: DB, s: Step, e: DB)
    requires Inv(db) && TargetsCurrent(db) && RowEffects.Moves(db, s, e) && ScanMove(s)
    ensures TargetsCurrent(e) && RuntimesKept(db, e) && OwnersKept(db, e) && StrandedKept(db, e)
  {
    hide Inv, RowEffects.Finds, RowEffects.PairRows, RowEffects.OperationRows, StopTargets.TargetCurrent, StopTargets.Stranded, StopTargets.SameRuntime;
    forall op ensures StopTargets.TargetCurrent(e, op) { StopTargets.TargetStaysCurrent(db, s, e, op); }
    forall pair ensures StopTargets.SameRuntime(db, e, pair) { StopTargets.GenerationChangesOnConfirm(db, s, e, pair); }
    forall o, now | Overdue(db, o, now) ensures Overdue(e, o, now) { StopTargets.StrandedStays(db, s, e, o); }
  }

  lemma StagesStay(db: DB, s: Step, e: DB)
    requires RowEffects.OperationRows(db, s, e) && ScanMove(s)
    ensures StagesKept(db, e)
  {
    forall d ensures (d in e.dispatches <==> d in db.dispatches) && (d in db.dispatches ==> e.dispatches[d].stage == db.dispatches[d].stage) {
      assert RowEffects.Row(e.dispatches, d) == RowEffects.DispatchAfter(db, s, d);
    }
  }

  lemma DecisionsStay(db: DB, s: Step, e: DB)
    requires RowEffects.Moves(db, s, e) && ScanMove(s)
    ensures DecisionsKept(db, e)
  {
    hide OperationsKept, RowEffects.MoreRisk;
    forall a | a in db.attempts && db.attempts[a].ended.Some?
      ensures a in e.attempts && e.attempts[a].ended == db.attempts[a].ended && e.attempts[a].disposition == db.attempts[a].disposition
    {
      assert AttemptForward(db.attempts[a], e.attempts[a]);
    }
    forall p | p in db.provisions && !ProvisionLeft(db, p) ensures p in e.provisions && e.provisions[p] == db.provisions[p] {
      assert RowEffects.Row(e.provisions, p) == RowEffects.ProvisionAfter(db, s, p);
    }
    forall r | r in db.restores && !RestoreLeft(db, r) ensures r in e.restores && e.restores[r] == db.restores[r] {
      assert RowEffects.Row(e.restores, r) == RowEffects.RestoreAfter(db, s, r);
    }
    forall o | o in db.stops && !StopLeft(db, o) ensures o in e.stops && e.stops[o] == db.stops[o] {
      assert RowEffects.Row(e.stops, o) == RowEffects.StopAfter(db, s, o);
    }
  }

  lemma LeftoversDecided(db: DB, s: Step)
    requires Inv(db) && Allowed(db, s) && ScanMove(s)
    ensures LeftDecided(db, Effect(db, s))
  {
    hide Inv, Allowed, Effect, RowEffects.LogAfter, RowEffects.MoreRisk;
    var e := Effect(db, s);
    RowEffects.StepRows(db, s);
    RowEffects.StepFinds(db, s);
    forall r | RestoreLeft(db, r) && !RestoreLeft(e, r) ensures r in e.restores && e.restores[r].resolution == RestoreOutcomeUnknown {
      assert RowEffects.Row(e.restores, r) == RowEffects.RestoreAfter(db, s, r);
    }
    forall p | ProvisionLeft(db, p) && !ProvisionLeft(e, p) ensures p in e.provisions && e.provisions[p].stage == ProvisionFailed {
      assert RowEffects.Row(e.provisions, p) == RowEffects.ProvisionAfter(db, s, p);
    }
    forall a | BlockedLeft(db, a) && !BlockedLeft(e, a)
      ensures a in e.attempts && e.attempts[a].ended.Some? && e.attempts[a].disposition == Some(AoBlockedEscalated)
    {
      if !Escalates(s, a) { BlockedMoves(db, s, a); }
      assert RowEffects.Row(e.attempts, a) == RowEffects.AttemptAfter(db, s, a);
      assert RowEffects.Row(e.tasks, db.attempts[a].lineage.task) == RowEffects.TaskAfter(db, s, db.attempts[a].lineage.task);
    }
  }

  predicate Escalates(s: Step, a: Id) { s.ExecutionStep? && s.execution.Closure? && s.execution.attempt == a }

  /** Of the transactions of a sweep only the escalation moves a BLOCKED task. */
  lemma BlockedMoves(db: DB, s: Step, a: Id)
    requires Inv(db) && Allowed(db, s) && ScanMove(s) && BlockedLeft(db, a) && !Escalates(s, a)
    ensures var t := db.attempts[a].lineage.task; RowEffects.TaskAfter(db, s, t) == RowEffects.Row(db.tasks, t)
    ensures var now := RowEffects.AttemptAfter(db, s, a); now.Some? && now.value.ended == db.attempts[a].ended && now.value.lineage == db.attempts[a].lineage
  {
    hide Inv, Allowed;
    Admission.StepAdmission(db, s);
    if s.DispatchStep? && s.dispatch.UnknownDelivery? { Admission.DispatchFacts(db, s.dispatch.op); }
    if s.ExecutionStep? && s.execution.Closure? { NumbersDiffer(db, s.execution.attempt, a); }
  }

  lemma NumbersDiffer(db: DB, a: Id, b: Id)
    requires Inv(db) && a in db.attempts && b in db.attempts && a != b
    ensures db.attempts[a].lineage.task == db.attempts[b].lineage.task ==> db.attempts[a].lineage.number != db.attempts[b].lineage.number
  {
    assert NumbersUnique(db.attempts);
  }

  /** One transaction of a sweep keeps the invariants and leaves nothing new behind. */
  lemma ScanStep(db: DB, s: Step)
    requires ScanInv(db) && Allowed(db, s) && ScanMove(s)
    ensures ScanInv(Effect(db, s)) && Shrinks(db, Effect(db, s))
  {
    hide RowEffects.Finds, RowEffects.PairRows, RowEffects.OperationRows, Kept, PromptsKept, StrandedKept;
    hide Inv, SagaInv, LiveStopsLater, TargetsCurrent, LeavesLess, OwnersKept, StagesKept, RuntimesKept, DecisionsKept, LeftDecided, TaskAllowed, PairAllowed, DispatchAllowed, ExecutionAllowed, StopAllowed, RestoreAllowed;
    hide TaskEffect, PairEffect, DispatchEffect, ExecutionEffect, StopEffect, RestoreEffect;
    StepProofs.StepKeeps(db, s);
    if SagaInv(db) { SagaProofs.StepKeepsSaga(db, s); }
    var e := Effect(db, s);
    RowEffects.StepMoves(db, s);
    StepPrompts(db, s);
    LaterStays(db, s, e);
    TargetsStay(db, s, e);
    StagesStay(db, s, e);
    DecisionsStay(db, s, e);
    LeftoversDecided(db, s);
    match s
    case PairStep(t) => PairShrinks(db, t);
    case DispatchStep(t) => DispatchShrinks(db, t);
    case ExecutionStep(t) => ExecutionShrinks(db, t);
    case StopStep(t) => StopShrinks(db, t);
    case RestoreStep(t) => RestoreShrinks(db, t);
  }

  // --- what the sweep can always do --------------------------------------------------------------

  /** A leftover send intent can always be contained. */
  lemma SendLeftContained(db: DB, d: Id)
    requires ScanInv(db)
    ensures SendLeft(db, d) <==> UnknownDeliveryAdmits(db, d)
  {
    hide LiveStopsLater, TargetsCurrent;
    StopTheorems.UnknownDeliveryEnabled(db, d);
  }

  /** A leftover blocked attempt can always be closed. */
  lemma BlockedCloses(db: DB, a: Id)
    requires ScanInv(db) && BlockedLeft(db, a)
    ensures ClosureAdmits(db, db.attempts[a].lineage.task, a)
  {
    hide LiveStopsLater, TargetsCurrent;
    assert AttemptRefs(db.tasks, db.contracts, db.attempts);
  }

  lemma OutcomeSettles(db: DB, op: Id, o: Outcome)
    requires StopOutcomeAdmits(db, op, o)
    ensures var e := StopOutcomeCommit(db, op, o); OtherStopsKept(db, e, op) && !StopLeft(e, op)
  {
    StopProofs.OutcomeFramed(db, StopOutcomeCommit(db, op, o), op, o);
  }

  /** The RUNNING_ATTEMPT_STOP attempts that a sweep leaves to stop classification. */
  function StopOwnedAttempts(db: DB): set<Id> {
    set o | o in db.stops && db.stops[o].target.purpose.RunningAttemptStop? && db.stops[o].target.lineage.Some?
            && db.stops[o].target.lineage.value.attempt in db.attempts
            && db.attempts[db.stops[o].target.lineage.value.attempt].ended.None?
      :: db.stops[o].target.lineage.value.attempt
  }

  function ExecutionRows(db: DB, ops: seq<Id>): seq<Execution>
    requires forall i | 0 <= i < |ops| :: InSnapshot(db, ops[i])
  {
    seq(|ops|, i requires 0 <= i < |ops| && InSnapshot(db, ops[i]) => ExecutionOf(db, ops[i]))
  }

  /** The execution candidates of ListRecoverySnapshot. */
  predicate InSnapshot(db: DB, d: Id) {
    && HasExecution(db, d)
    && var state := db.tasks[db.dispatches[d].bound.task].state;
    && ((state.Dispatched? && (db.dispatches[d].stage.SendRequested? ==> !db.dispatches[d].unknown))
        || (state.Running? && db.dispatches[d].stage.SendConfirmed?))
  }

  /** The send intents among some executions that the sweep does not skip. */
  function SendOps(xs: seq<Execution>, owned: set<Id>): set<Id> {
    set i | 0 <= i < |xs| && xs[i].stage.SendRequested? && xs[i].attempt !in owned :: xs[i].op
  }

  /** A leftover send intent is a candidate that no live stop owns. */
  lemma SendLeftListed(db: DB, xs: seq<Execution>, d: Id)
    requires ScanInv(db) && SendLeft(db, d)
    requires forall k | k in db.dispatches && InSnapshot(db, k) :: ExecutionOf(db, k) in xs
    ensures d in SendOps(xs, StopOwnedAttempts(db))
  {
    hide Inv, TargetsCurrent;
    SendLeftContained(db, d);
    var i :| 0 <= i < |xs| && xs[i] == ExecutionOf(db, d);
    PromptedIsUnowned(db, xs[i].attempt);
  }

  lemma PromptedIsUnowned(db: DB, a: Id)
    requires LiveStopsLater(db) && Prompting(db, a)
    ensures a !in StopOwnedAttempts(db)
  {}

  /** executionWinner: the rows no longer show the execution the sweep read. */
  predicate ExecutionMoved(db: DB, x: Execution) {
    && x.op in db.dispatches && x.task in db.tasks && x.attempt in db.attempts
    && var d := db.dispatches[x.op];
    && d.bound == Binding(x.attempt, x.pair, x.task, x.session, x.gen)
    && db.attempts[x.attempt].lineage.contract == x.contract
    && (db.tasks[x.task].state != x.state || db.attempts[x.attempt].ended.Some? || d.stage != x.stage
        || db.attempts[x.attempt].disposition != x.disposition || d.unknown)
  }

  /** stopWinner: the row is no longer the in-flight stop the sweep read. */
  predicate StopMoved(db: DB, op: Id, x: Stop) {
    op in db.stops && db.stops[op].target == x.target && (!db.stops[op].resolution.InFlight? || db.stops[op].stage != x.stage)
  }

  /** The legacy check of a sweep never fails: every confirmed send has its budget. */
  lemma NothingUnbudgeted(db: DB, d: Id)
    requires ScanInv(db)
    ensures !Unbudgeted(db, d)
  {
    hide LiveStopsLater, TargetsCurrent;
    assert BudgetInv(db.dispatches, db.budgets);
  }

  /** ListOpenConfirmedWithoutBudget. */
  predicate Unbudgeted(db: DB, d: Id) {
    && HasExecution(db, d) && db.dispatches[d].stage.SendConfirmed?
    && (db.tasks[db.dispatches[d].bound.task].state.Dispatched? || db.tasks[db.dispatches[d].bound.task].state.Running?)
    && db.dispatches[d].bound.attempt !in db.budgets
  }

  lemma OverdueRow(db: DB, o: Id, now: Time)
    requires Overdue(db, o, now)
    ensures o in db.stops && db.stops[o].resolution.InFlight? && db.stops[o].stage.StopCallSucceeded?
    ensures db.stops[o].deadline.Some? && db.stops[o].deadline.value <= now
  {}
}
