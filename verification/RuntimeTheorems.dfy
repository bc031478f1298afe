/** What a settled stop and an observation leave behind, in every run, told by the rows alone. */
module RuntimeTheorems {
  import opened Domain
  import opened RecoveryTransactions
  import opened StopTransactions
  import opened Invariants
  import opened RowEffects
  import opened Steps
  import Admission
  import Runs

  // --- settled stops ------------------------------------------------------------------------

  /** The stop newly shows this result; a risk acceptance or a hand-over to a human is none. */
  predicate NewlySettled(db: DB, e: DB, op: Id) {
    && op in e.stops && e.stops[op].resolution !in {InFlight, ReissueRequiresHuman, RiskAccepted}
    && (op in db.stops ==> db.stops[op].resolution != e.stops[op].resolution)
  }

  /** The Pair's session row shows the runtime the stop names. */
  predicate ShowsTarget(db: DB, t: StopTarget) {
    t.pair in db.sessions && db.sessions[t.pair].session == t.session && db.sessions[t.pair].gen == t.gen
  }

  /** The end of the attempt a live stop names, by the result its row shows. */
  predicate Ended(e: DB, op: Id)
    requires op in e.stops
  {
    var row := e.stops[op];
    && row.target.lineage.Some? && row.target.lineage.value.attempt in e.attempts && row.target.lineage.value.task in e.tasks
    && e.tasks[row.target.lineage.value.task].state == Failed
    && var a := e.attempts[row.target.lineage.value.attempt];
    && a.ended == row.resolvedAt && a.ended.Some?
    && (a.quarantined <==> row.resolution != TerminationConfirmed)
    && a.disposition == Some(match row.resolution
         case TerminationConfirmed => WorkerStopped
         case TargetAbsent => SessionAbsent
         case ConfirmationTimeout => StopConfirmationTimedOut
         case GenerationMismatch => StopGenerationMismatched
         case CallOutcomeUnknown => StopCallUnknown
         case _ => WorkerTerminationUnknown)
  }

  /** Nothing quarantined, unresolved or unknown is left on the Pair. */
  predicate RiskFree(e: DB, pair: Id) {
    && (forall a | a in e.attempts && e.attempts[a].lineage.task in e.tasks && e.tasks[e.attempts[a].lineage.task].pair == pair :: !e.attempts[a].quarantined)
    && (forall r | r in e.restores && e.restores[r].tuple.pair == pair :: e.restores[r].resolution == RestoreResolved)
    && forall d | d in e.dispatches && e.dispatches[d].bound.pair == pair :: !e.dispatches[d].unknown
  }

  lemma SettledBy(db: DB, s: Step, e: DB, op: Id) returns (o: Outcome)
    requires Inv(db) && Chain(db, s, e) && NewlySettled(db, e, op)
    ensures s == StopStep(CommitOutcome(op, o)) && Admission.StopChecks(db, s.stop) && Rowwise(db, s, e)
    ensures op in db.stops && Row(e.stops, op) == StopAfter(db, s, op) && e.stops[op].resolution == o.resolution
  {
    hide Inv, Allowed, Effect, PairRows, LineageRows, LogAfter;
    StepRows(db, s);
    assert Row(e.stops, op) == StopAfter(db, s, op);
    o := s.stop.outcome;
    StopAllowedOf(db, s);
  }

  lemma StopAllowedOf(db: DB, s: Step)
    requires Inv(db) && Allowed(db, s) && s.StopStep?
    ensures Admission.StopChecks(db, s.stop)
  {
    hide Inv, Allowed;
    Admission.StepAdmission(db, s);
  }

  /** A settled stop leaves its Pair quarantined, unless it confirmed the end of a live attempt
      that was the Pair's only risk; a confirmed one leaves the session it names terminated. */
  predicate RuntimeSettled(db: DB, e: DB, op: Id)
    requires op in e.stops
  {
    var row := e.stops[op]; var t := row.target;
    ShowsTarget(db, t) ==>
      && ShowsTarget(e, t)
      && (row.resolution == TerminationConfirmed ==> e.sessions[t.pair].status == SessionTerminated)
      && (row.resolution != TerminationConfirmed ==> e.sessions[t.pair].status == db.sessions[t.pair].status)
      && (e.sessions[t.pair].quarantined <==> !(t.purpose == RunningAttemptStop && row.resolution == TerminationConfirmed && RiskFree(e, t.pair)))
  }

  lemma SettledRuntime(db: DB, s: Step, e: DB, op: Id)
    requires Inv(db) && Chain(db, s, e) && NewlySettled(db, e, op)
    ensures RuntimeSettled(db, e, op) && (e.stops[op].target.purpose == RunningAttemptStop ==> Ended(e, op) && ShowsTarget(db, e.stops[op].target))
  {
    hide Inv, Allowed, Effect, LogAfter, RiskFree, MoreRisk;
    var o := SettledBy(db, s, e, op);
    var t := db.stops[op].target;
    Admission.StopFacts(db, op);
    assert Row(e.sessions, t.pair) == SessionAfter(db, s, t.pair);
    if t.purpose == RunningAttemptStop {
      var l := t.lineage.value;
      assert Row(e.attempts, l.attempt) == AttemptAfter(db, s, l.attempt) && Row(e.tasks, l.task) == TaskAfter(db, s, l.task);
      if o.resolution == TerminationConfirmed { RiskLeft(db, s, e, op, o); }
    }
  }

  /** The risk besides the closed attempt is the risk afterwards. */
  lemma RiskLeft(db: DB, s: Step, e: DB, op: Id, o: Outcome)
    requires Rowwise(db, s, e) && s == StopStep(CommitOutcome(op, o)) && o.resolution == TerminationConfirmed
    requires op in db.stops && db.stops[op].target.purpose == RunningAttemptStop && db.stops[op].target.lineage.Some?
    requires db.stops[op].target.lineage.value.attempt in db.attempts
    ensures RiskFree(e, db.stops[op].target.pair) <==> !MoreRisk(db, db.stops[op].target.pair, db.stops[op].target.lineage)
  {
    hide LogAfter;
    var closed := db.stops[op].target.lineage.value.attempt;
    forall t ensures (t in e.tasks <==> t in db.tasks) && (t in db.tasks ==> e.tasks[t].pair == db.tasks[t].pair) { assert Row(e.tasks, t) == TaskAfter(db, s, t); }
    forall a
      ensures a in e.attempts <==> a in db.attempts
      ensures a in db.attempts ==> e.attempts[a].lineage == db.attempts[a].lineage && e.attempts[a].quarantined == (a != closed && db.attempts[a].quarantined)
    {
      assert Row(e.attempts, a) == AttemptAfter(db, s, a);
    }
    forall r ensures (r in e.restores <==> r in db.restores) && (r in db.restores ==> e.restores[r] == db.restores[r]) { assert Row(e.restores, r) == RestoreAfter(db, s, r); }
    forall d ensures (d in e.dispatches <==> d in db.dispatches) && (d in db.dispatches ==> e.dispatches[d] == db.dispatches[d]) { assert Row(e.dispatches, d) == DispatchAfter(db, s, d); }
  }

  /** Whenever a stop row newly shows a result: the session it names is terminated if the result
      is a confirmed termination and unchanged in status otherwise, the Pair stays quarantined
      while any risk is left, and a live attempt is closed with the end the result stands for. */
  lemma StopSettles(states: seq<DB>, steps: seq<Step>, i: nat, op: Id)
    requires Run(states, steps) && i < |steps| && NewlySettled(states[i], states[i + 1], op)
    ensures RuntimeSettled(states[i], states[i + 1], op)
    ensures states[i + 1].stops[op].target.purpose == RunningAttemptStop ==> ShowsTarget(states[i], states[i + 1].stops[op].target) && Ended(states[i + 1], op)
  {
    hide Inv, Allowed, Effect, RuntimeSettled, Ended, NewlySettled, ShowsTarget;
    assert StepAt(states, steps, i);
    Runs.Always(states, steps, i);
    SettledRuntime(states[i], steps[i], states[i + 1], op);
  }

  // --- the status of a session --------------------------------------------------------------

  /** A stop that newly shows a confirmed termination names the Pair's runtime. */
  ghost predicate Killed(db: DB, e: DB, pair: Id) {
    exists op | op in e.stops :: NewlySettled(db, e, op) && e.stops[op].resolution == TerminationConfirmed
      && e.stops[op].target.pair == pair && ShowsTarget(db, e.stops[op].target)
  }

  /** The status the step itself carries to the Pair. */
  function Carried(db: DB, s: Step, pair: Id): Option<SessionStatus> {
    match s
    case PairStep(UpdateStatus(p, _, _, status)) => if p == pair then Some(status) else None
    case RestoreStep(ConfirmRestore(op, _, _, _, status, _)) => if op in db.restores && db.restores[op].tuple.pair == pair then Some(status) else None
    case ExecutionStep(Observe(x, seen, _)) =>
      if x.pair == pair && seen.LiveRuntime? && seen.gen == x.gen && seen.terminated then Some(SessionTerminated) else None
    case _ => None
  }

  lemma StatusAfter(db: DB, s: Step, e: DB, pair: Id)
    requires Inv(db) && Chain(db, s, e) && pair in db.sessions
    ensures pair in e.sessions
    ensures e.sessions[pair].status == if Killed(db, e, pair) then SessionTerminated
                                       else if Carried(db, s, pair).Some? then Carried(db, s, pair).value
                                       else db.sessions[pair].status
  {
    hide Inv, Allowed, Effect, LineageRows, LogAfter, MoreRisk, NewlySettled, ShowsTarget;
    StepRows(db, s);
    assert Row(e.sessions, pair) == SessionAfter(db, s, pair);
    if s.StopStep? && s.stop.CommitOutcome? {
      OutcomeKills(db, s, e, pair);
    } else if Killed(db, e, pair) {
      var op :| op in e.stops && NewlySettled(db, e, op);
      var o := SettledBy(db, s, e, op);
    }
    if s.PairStep? && s.pair.ConfirmProvision? { StepFinds(db, s); }
  }

  lemma OutcomeKills(db: DB, s: Step, e: DB, pair: Id)
    requires Inv(db) && Chain(db, s, e) && s.StopStep? && s.stop.CommitOutcome? && pair in db.sessions
    ensures s.stop.op in db.stops
    ensures var t := db.stops[s.stop.op].target;
      Killed(db, e, pair) <==> s.stop.outcome.resolution == TerminationConfirmed && t.pair == pair && t.gen == db.sessions[pair].gen
  {
    hide Inv, Allowed, Effect, PairRows, LineageRows, LogAfter;
    var op := s.stop.op;
    StepRows(db, s);
    StopAllowedOf(db, s);
    Admission.StopFacts(db, op);
    assert Row(e.stops, op) == StopAfter(db, s, op);
    assert s.stop.outcome.resolution == TerminationConfirmed ==> NewlySettled(db, e, op);
    forall k | NewlySettled(db, e, k) ensures k == op { var o := SettledBy(db, s, e, k); }
  }

  /** A session's status changes for three reasons only: a stop that named it was confirmed, its
      own worker was observed terminated, or the step carried a status to it; and each of them
      does change it. */
  lemma StatusExact(states: seq<DB>, steps: seq<Step>, i: nat, pair: Id)
    requires Run(states, steps) && i < |steps| && pair in states[i].sessions
    ensures pair in states[i + 1].sessions
    ensures states[i + 1].sessions[pair].status ==
      if Killed(states[i], states[i + 1], pair) then SessionTerminated
      else if Carried(states[i], steps[i], pair).Some? then Carried(states[i], steps[i], pair).value
      else states[i].sessions[pair].status
  {
    hide Inv, Allowed, Effect, Killed, Carried;
    assert StepAt(states, steps, i);
    Runs.Always(states, steps, i);
    StatusAfter(states[i], steps[i], states[i + 1], pair);
  }

  // --- observations -------------------------------------------------------------------------

  /** The rows of an execution before and after. */
  predicate SameExecution(db: DB, e: DB, x: Execution) {
    && x.task in db.tasks && x.task in e.tasks && x.attempt in db.attempts && x.attempt in e.attempts && x.pair in db.sessions && x.pair in e.sessions
    && db.tasks[x.task].state == x.state && db.attempts[x.attempt].disposition == x.disposition && db.attempts[x.attempt].ended == None
  }

  /** The attempt is closed and its task failed; poisoned says that attempt and session are
      quarantined by it, otherwise both keep their flag. */
  predicate Closes(db: DB, e: DB, x: Execution, at: Time, why: Disposition, poisoned: bool)
    requires SameExecution(db, e, x)
  {
    && e.tasks[x.task].state == Failed
    && e.attempts[x.attempt] == db.attempts[x.attempt].(ended := Some(at), disposition := Some(why), quarantined := poisoned || db.attempts[x.attempt].quarantined)
    && e.sessions[x.pair].quarantined == (poisoned || db.sessions[x.pair].quarantined)
  }

  /** The attempt stays open in this state, with this mark. */
  predicate Shows(db: DB, e: DB, x: Execution, state: TaskState, mark: Option<Disposition>)
    requires SameExecution(db, e, x)
  {
    && e.tasks[x.task].state == state
    && e.attempts[x.attempt] == db.attempts[x.attempt].(disposition := mark)
    && e.sessions[x.pair] == db.sessions[x.pair]
  }

  lemma ObservedRow(db: DB, s: Step, e: DB, x: Execution, seen: PostSend, at: Time)
    requires Inv(db) && Chain(db, s, e) && s == ExecutionStep(Observe(x, seen, at))
    ensures SameExecution(db, e, x) && (x.state == Dispatched || x.state == Running)
    ensures Row(e.tasks, x.task) == TaskAfter(db, s, x.task) && Row(e.attempts, x.attempt) == AttemptAfter(db, s, x.attempt)
    ensures Row(e.sessions, x.pair) == SessionAfter(db, s, x.pair)
  {
    hide Inv, Allowed, Effect, LogAfter;
    StepRows(db, s);
    Admission.StepAdmission(db, s);
    Admission.DispatchFacts(db, x.op);
    assert Row(e.tasks, x.task) == TaskAfter(db, s, x.task) && Row(e.attempts, x.attempt) == AttemptAfter(db, s, x.attempt);
    assert Row(e.sessions, x.pair) == SessionAfter(db, s, x.pair);
  }

  /** What every committed observation makes of its execution. */
  lemma ObservationTable(states: seq<DB>, steps: seq<Step>, i: nat, x: Execution, seen: PostSend, at: Time)
    requires Run(states, steps) && i < |steps| && steps[i] == ExecutionStep(Observe(x, seen, at))
    ensures SameExecution(states[i], states[i + 1], x) && (x.state == Dispatched || x.state == Running)
    // the worker is gone, replaced or dead, or was found idle before it had ever run
    ensures seen.AbsentRuntime? ==> Closes(states[i], states[i + 1], x, at, SessionAbsent, true)
    ensures seen.LiveRuntime? && seen.gen != x.gen ==> Closes(states[i], states[i + 1], x, at, StaleExecutionGeneration, true)
    ensures seen.LiveRuntime? && seen.gen == x.gen && seen.terminated ==>
      Closes(states[i], states[i + 1], x, at, WorkerTerminationUnknown, false) && states[i + 1].sessions[x.pair].status == SessionTerminated
    ensures seen.LiveRuntime? && seen.gen == x.gen && !seen.terminated && x.state == Dispatched && seen.activity == ActivityIdle && !seen.handoff ==>
      Closes(states[i], states[i + 1], x, at, MissedActiveWindow, false)
    // it lives, and the execution is not held
    ensures seen.LiveRuntime? && seen.gen == x.gen && !seen.terminated && x.disposition in {None, Some(RecoveryPending)} ==>
      && (seen.activity == ActivityActive ==> Shows(states[i], states[i + 1], x, Running, None))
      && (seen.activity == ActivityWaitingInput ==> Shows(states[i], states[i + 1], x, Running, Some(AoWaitingInputObserved)))
      && (seen.activity == ActivityBlocked ==> Shows(states[i], states[i + 1], x, Running, Some(AoBlockedDecision)))
      && (seen.activity == ActivityExited ==> Shows(states[i], states[i + 1], x, x.state, None))
      && (seen.activity == ActivityIdle && x.state == Running ==> Shows(states[i], states[i + 1], x, Running, None))
      && (seen.activity == ActivityIdle && x.state == Dispatched && seen.handoff ==> Shows(states[i], states[i + 1], x, Running, Some(MissedActiveWindow)))
    // it lives, and the execution is held
    ensures seen.LiveRuntime? && seen.gen == x.gen && !seen.terminated && x.disposition !in {None, Some(RecoveryPending)} ==>
      (x.state == Running || seen.activity != ActivityIdle || seen.handoff ==> Shows(states[i], states[i + 1], x, x.state, x.disposition))
  {
    hide Inv, Allowed, Effect;
    assert StepAt(states, steps, i);
    Runs.Always(states, steps, i);
    ObservedRow(states[i], steps[i], states[i + 1], x, seen, at);
  }

  /** A DISPATCHED task starts to run by an observation of its own living worker at work, at
      rest after a hand-over, waiting or blocked, and by nothing else. */
  lemma OnlyObservationsRun(states: seq<DB>, steps: seq<Step>, i: nat, t: Id)
    requires SagaRun(states, steps) && i < |steps| && t in states[i].tasks && t in states[i + 1].tasks
    requires states[i].tasks[t].state != Running && states[i + 1].tasks[t].state == Running
    ensures steps[i].ExecutionStep? && steps[i].execution.Observe?
    ensures var x, seen := steps[i].execution.x, steps[i].execution.seen;
      && x.task == t && states[i].tasks[t].state == Dispatched && seen.LiveRuntime? && seen.gen == x.gen && !seen.terminated
      && seen.activity != ActivityExited && (seen.activity == ActivityIdle ==> seen.handoff)
  {
    hide Inv, Allowed, Effect, LogAfter, PairRows, OperationRows, AttemptAfter, ContractAfter;
    assert StepAt(states, steps, i) && SagaStep(steps[i]);
    Runs.Always(states, steps, i);
    StepRows(states[i], steps[i]);
    assert Row(states[i + 1].tasks, t) == TaskAfter(states[i], steps[i], t);
    RunningMoves(states[i], steps[i]);
  }

  lemma RunningMoves(db: DB, s: Step)
    requires Inv(db) && Allowed(db, s) && SagaStep(s)
    ensures s.TaskStep? && s.task.Transition? ==> s.task.to != Running
    ensures s.ExecutionStep? && s.execution.Observe? && s.execution.x.task in db.tasks ==> db.tasks[s.execution.x.task].state == s.execution.x.state
  {
    hide Inv;
    if s.TaskStep? && s.task.Transition? { Admission.OnlyDispatchedRuns(s.task.from, s.task.to); }
  }
}
