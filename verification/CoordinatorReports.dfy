/** What a coordinator reports is what the database holds: success is only ever reported after
    the external call, with the rows that record it, and those rows stay. */
module CoordinatorReports {
  import opened Domain
  import opened DispatchTransactions
  import opened StopTransactions
  import opened History
  import opened Invariants
  import opened Steps
  import opened Coordinators
  import opened CoordinatorProofs
  import Containment
  import Protocol
  import RowEffects

  // --- what a caller knows at each program counter ----------------------------------------------

  predicate SessionCreated(db: DB, op: Id, session: Id) {
    op in db.provisions && db.provisions[op].stage.ProvisionConfirmed? && db.provisions[op].session == Some(session)
  }

  predicate SessionResumed(db: DB, op: Id, gen: Id) {
    op in db.restores && db.restores[op].stage.RestoreConfirmed? && db.restores[op].observed == Some(gen)
  }

  predicate Bound(db: DB, op: Id, attempt: Id) { op in db.dispatches && db.dispatches[op].bound.attempt == attempt }

  predicate Delivered(db: DB, op: Id) { op in db.dispatches && db.dispatches[op].stage.SendConfirmed? }

  predicate StopIs(db: DB, op: Id, t: StopTarget) { op in db.stops && db.stops[op].target == t }

  /** The kill has been answered or made needless. */
  predicate Answered(db: DB, op: Id) { op in db.stops && !Protocol.Unanswered(db, op) }

  predicate ProvisionKnows(db: DB, calls: seq<Call>, op: Id, pc: ProvisionPc) {
    && (pc.FailCreate? || pc.ConfirmCreate? || pc.RereadCreate? || (pc.ProvisionEnd? && pc.created.Some?) ==> Protocol.Create(op) in calls)
    && (pc.ProvisionEnd? && pc.created.Some? ==> SessionCreated(db, op, pc.created.value))
  }

  predicate RestoreKnows(db: DB, calls: seq<Call>, op: Id, pc: RestorePc) {
    && (pc.ObserveResumed? || pc.ConfirmResume? || pc.RereadRestore? || (pc.RestoreEnd? && pc.restored.Some?) ==> Protocol.Resume(op) in calls)
    && (pc.RestoreEnd? && pc.restored.Some? ==> SessionResumed(db, op, pc.restored.value))
  }

  predicate Sent(pc: DispatchPc) {
    pc.ConfirmDelivery? || pc.RereadOperation? || pc.RereadTask? || pc.RereadAttempt? || pc.RereadAudit? || pc.ContainDelivery? || pc == DispatchEnd(true)
  }

  predicate Prepared(pc: DispatchPc) {
    Sent(pc) || pc.ObserveBefore? || pc.HoldBefore? || pc.CloseBefore? || pc.RejectBefore? || pc.RequestIntent? || pc.SendPrompt?
  }

  predicate Holding(pc: DispatchPc) { pc.RereadTask? || pc.RereadAttempt? || pc.RereadAudit? }

  predicate DispatchKnows(db: DB, calls: seq<Call>, rq: DispatchRequest, pc: DispatchPc) {
    var x := rq.bind;
    && (Sent(pc) ==> Protocol.Send(x.op) in calls)
    && (Prepared(pc) ==> Bound(db, x.op, x.attempt))
    && (Holding(pc) && pc.row.stage.SendConfirmed? ==> Delivered(db, x.op))
    && (pc == DispatchEnd(true) ==> Delivered(db, x.op))
  }

  predicate Killed(pc: StopPc) { pc.AcceptCall? || pc.RereadStop? || pc.RereadAccepted? || pc.ObserveAccepted? }

  predicate StopKnows(db: DB, calls: seq<Call>, rq: StopRequest, pc: StopPc) {
    && (Killed(pc) ==> Protocol.Kill(rq.op) in calls)
    && ((!Unreserved(pc) && !Over(pc)) || pc == StopEnd(true) ==> StopIs(db, rq.op, rq.target))
    && (pc.ObserveAccepted? || pc == StopEnd(true) ==> Answered(db, rq.op))
  }

  predicate Knows(db: DB, calls: seq<Call>, c: Caller) {
    match c
    case Provisioning(op, _, pc) => ProvisionKnows(db, calls, op, pc)
    case Restoring(op, _, pc) => RestoreKnows(db, calls, op, pc)
    case Dispatching(rq, pc) => DispatchKnows(db, calls, rq, pc)
    case Stopping(rq, pc) => StopKnows(db, calls, rq, pc)
  }

  // --- nobody takes it back ----------------------------------------------------------------------

  lemma CreatedStays(db: DB, s: Step, e: DB, op: Id, session: Id)
    requires RowEffects.Moves(db, s, e) && SessionCreated(db, op, session)
    ensures SessionCreated(e, op, session)
  {
    hide RowEffects.OperationRows, Kept;
    assert RowEffects.Row(e.provisions, op) == RowEffects.ProvisionAfter(db, s, op);
  }

  lemma ResumedForward(was: Restore, now: Restore)
    requires RestoreForward(was, now) && was.stage.RestoreConfirmed?
    ensures now.stage.RestoreConfirmed? && now.observed == was.observed
  {}

  lemma ForwardKnows(db: DB, e: DB, calls: seq<Call>, more: seq<Call>, c: Caller)
    requires Knows(db, calls, c) && OperationsKept(db, e) && (forall k | k in calls :: k in more)
    requires forall op, session :: SessionCreated(db, op, session) ==> SessionCreated(e, op, session)
    ensures Knows(e, more, c)
  {
    if c.Restoring? && c.restore.RestoreEnd? && c.restore.restored.Some? {
      ResumedForward(db.restores[c.op], e.restores[c.op]);
    }
  }

  // --- what a turn teaches its caller ----------------------------------------------------------------

  /** The database after a turn. */
  ghost predicate Turned(db: DB, turn: Turn, reply: Reply, e: DB) {
    && Fits(turn, reply)
    && (if turn.Commits? && !reply.commit.Refused? then RowEffects.Moves(db, turn.s, e) else e == db)
  }

  predicate Called(calls: seq<Call>, turn: Turn, more: seq<Call>) {
    (forall k | k in calls :: k in more) && (turn.Calls? ==> turn.call in more)
  }

  lemma ProvisionLearns(db: DB, e: DB, calls: seq<Call>, more: seq<Call>, op: Id, pair: Id, pc: ProvisionPc, reply: Reply)
    requires ProvisionKnows(db, calls, op, pc) && Called(calls, ProvisionTurn(op, pair, pc), more)
    requires Turned(db, ProvisionTurn(op, pair, pc), reply, e)
    ensures ProvisionKnows(e, more, op, ProvisionNext(op, pair, pc, reply, db))
  {
    hide Kept, RowEffects.OperationRows, RowEffects.SessionAfter;
    if pc.ConfirmCreate? && !reply.commit.Refused? { assert RowEffects.Row(e.provisions, op) == RowEffects.ProvisionAfter(db, ProvisionTurn(op, pair, pc).s, op); }
  }

  lemma RestoreLearns(db: DB, e: DB, calls: seq<Call>, more: seq<Call>, op: Id, tuple: RestoreTuple, pc: RestorePc, reply: Reply)
    requires RestoreKnows(db, calls, op, pc) && Called(calls, RestoreTurn(op, tuple, pc, At(reply)), more)
    requires Turned(db, RestoreTurn(op, tuple, pc, At(reply)), reply, e)
    ensures RestoreKnows(e, more, op, RestoreNext(op, tuple, pc, reply, db))
  {
    hide Kept, RowEffects.PairRows;
    if pc.ConfirmResume? && !reply.commit.Refused? { assert RowEffects.Row(e.restores, op) == RowEffects.RestoreAfter(db, RestoreTurn(op, tuple, pc, At(reply)).s, op); }
  }

  predicate DispatchesKept(db: DB, e: DB) {
    forall d | d in db.dispatches :: d in e.dispatches && DispatchForward(db.dispatches[d], e.dispatches[d])
  }

  lemma KeptDispatches(db: DB, e: DB)
    requires OperationsKept(db, e)
    ensures DispatchesKept(db, e)
  {}

  lemma DispatchLearns(db: DB, e: DB, calls: seq<Call>, more: seq<Call>, rq: DispatchRequest, pc: DispatchPc, reply: Reply)
    requires DispatchKnows(db, calls, rq, pc) && Called(calls, DispatchTurn(rq, pc, At(reply)), more) && DispatchesKept(db, e)
    requires Fits(DispatchTurn(rq, pc, At(reply)), reply)
    requires pc.PrepareAttempt? && reply.commit.Done? ==> Bound(e, rq.bind.op, rq.bind.attempt)
    requires pc.ConfirmDelivery? && reply.commit.Done? ==> Delivered(e, rq.bind.op)
    ensures DispatchKnows(e, more, rq, DispatchNext(rq, pc, reply, db))
  {
    hide Containment.FoundIn, Containment.ContainedTuple, Retries;
    if pc.LoadOperation? { RetriedIsBound(rq.bind, pc.task, pc.attempt, db); }
  }

  lemma RetriedIsBound(x: Allocation, task: Task, attempt: Attempt, db: DB)
    ensures x.op in db.dispatches && Retries(x, task, attempt, db.dispatches[x.op]) ==> Bound(db, x.op, x.attempt)
  {}

  /** What the rows of a caller's own step show. */
  lemma StepReports(db: DB, s: Step, e: DB)
    requires RowEffects.Moves(db, s, e)
    ensures s.DispatchStep? && s.dispatch.Prepare? ==> Bound(e, s.dispatch.x.op, s.dispatch.x.attempt)
    ensures s.DispatchStep? && s.dispatch.ConfirmSend? ==> Delivered(e, s.dispatch.op)
    ensures s.StopStep? && s.stop.ReserveStop? ==> StopIs(e, s.stop.op, s.stop.target)
    ensures s.RestoreStep? && s.restore.ClaimCleanup? ==> StopIs(e, s.restore.op, s.restore.target)
    ensures s.StopStep? && s.stop.CommitOutcome? ==> Answered(e, s.stop.op)
  {
    hide RowEffects.PairRows, Kept;
    if s.DispatchStep? {
      var op := if s.dispatch.Prepare? then s.dispatch.x.op else s.dispatch.op;
      assert RowEffects.Row(e.dispatches, op) == RowEffects.DispatchAfter(db, s, op);
    }
    if s.StopStep? && (s.stop.ReserveStop? || s.stop.CommitOutcome?) { assert RowEffects.Row(e.stops, s.stop.op) == RowEffects.StopAfter(db, s, s.stop.op); }
    if s.RestoreStep? { assert RowEffects.Row(e.stops, s.restore.op) == RowEffects.StopAfter(db, s, s.restore.op); }
  }

  predicate StopsKept(db: DB, e: DB) { forall o | o in db.stops :: o in e.stops && StopForward(db.stops[o], e.stops[o]) }

  lemma KeptStops(db: DB, e: DB)
    requires OperationsKept(db, e)
    ensures StopsKept(db, e)
  {}

  lemma StopLearns(db: DB, e: DB, calls: seq<Call>, more: seq<Call>, rq: StopRequest, pc: StopPc, reply: Reply)
    requires StopKnows(db, calls, rq, pc) && Called(calls, StopTurn(rq, pc, At(reply)), more) && StopsKept(db, e)
    requires Fits(StopTurn(rq, pc, At(reply)), reply)
    requires pc.ReserveIntent? && reply.commit.Done? ==> StopIs(e, rq.op, rq.target)
    requires pc.SettleStop? && reply.commit.Done? ==> Answered(e, rq.op)
    ensures StopKnows(e, more, rq, StopNext(rq, pc, reply, db))
  {
    hide TimeoutEffectOwner;
  }

  lemma TurnKept(db: DB, turn: Turn, reply: Reply, e: DB)
    requires Turned(db, turn, reply, e)
    ensures OperationsKept(db, e)
    ensures forall op, session :: SessionCreated(db, op, session) ==> SessionCreated(e, op, session)
  {
    hide LineagesKept, RowEffects.Moves;
    if turn.Commits? && !reply.commit.Refused? { StepKept(db, turn.s, e); }
  }

  lemma StepKept(db: DB, s: Step, e: DB)
    requires RowEffects.Moves(db, s, e)
    ensures OperationsKept(db, e)
    ensures forall op, session :: SessionCreated(db, op, session) ==> SessionCreated(e, op, session)
  {
    hide LineagesKept, OperationsKept, SessionCreated, RowEffects.Finds, RowEffects.PairRows, RowEffects.OperationRows;
    forall op, session | SessionCreated(db, op, session) ensures SessionCreated(e, op, session) { CreatedStays(db, s, e, op, session); }
  }

  lemma CallerLearns(db: DB, e: DB, calls: seq<Call>, more: seq<Call>, c: Caller, reply: Reply)
    requires Knows(db, calls, c) && Turned(db, TurnOf(c, At(reply)), reply, e) && Called(calls, TurnOf(c, At(reply)), more)
    ensures Knows(e, more, NextOf(c, reply, db))
  {
    hide Allowed, Effect, OperationsKept, DispatchesKept, StopsKept, ProvisionKnows, RestoreKnows, DispatchKnows, StopKnows, Called, ProvisionNext, RestoreNext, DispatchNext, StopNext, RowEffects.Moves;
    var turn := TurnOf(c, At(reply));
    TurnKept(db, turn, reply, e);
    if turn.Commits? && !reply.commit.Refused? { StepReports(db, turn.s, e); }
    match c
    case Provisioning(op, pair, pc) => ProvisionLearns(db, e, calls, more, op, pair, pc, reply);
    case Restoring(op, tuple, pc) => RestoreLearns(db, e, calls, more, op, tuple, pc, reply);
    case Dispatching(rq, pc) =>
      KeptDispatches(db, e);
      DispatchLearns(db, e, calls, more, rq, pc, reply);
    case Stopping(rq, pc) =>
      KeptStops(db, e);
      StopLearns(db, e, calls, more, rq, pc, reply);
  }

  // --- every caller knows, always ------------------------------------------------------------------------

  predicate AllKnow(h: Host) { forall f | f in h.callers :: Knows(h.db, h.calls, h.callers[f]) }

  lemma AdvanceKnows(h: Host, f: Id, reply: Reply)
    requires AllKnow(h) && Possible(h, Advance(f, reply))
    ensures AllKnow(Advanced(h, f, reply))
  {
    hide Allowed, Effect, OperationsKept, Knows, TurnOf, NextOf, SessionCreated, RowEffects.Moves;
    var e := Advanced(h, f, reply);
    var turn := TurnOf(h.callers[f], At(reply));
    if turn.Commits? && !reply.commit.Refused? { RowEffects.StepMoves(h.db, turn.s); }
    assert Turned(h.db, turn, reply, e.db) && Called(h.calls, turn, e.calls);
    TurnKept(h.db, turn, reply, e.db);
    CallerLearns(h.db, e.db, h.calls, e.calls, h.callers[f], reply);
    forall g | g in h.callers && g != f ensures Knows(e.db, e.calls, h.callers[g]) { ForwardKnows(h.db, e.db, h.calls, e.calls, h.callers[g]); }
  }

  lemma WrittenKnows(h: Host, s: Step)
    requires AllKnow(h) && Allowed(h.db, s)
    ensures AllKnow(h.(db := Effect(h.db, s)))
  {
    hide Allowed, Effect, OperationsKept, Knows, SessionCreated, RowEffects.Moves;
    RowEffects.StepMoves(h.db, s);
    StepKept(h.db, s, Effect(h.db, s));
    forall g | g in h.callers ensures Knows(Effect(h.db, s), h.calls, h.callers[g]) { ForwardKnows(h.db, Effect(h.db, s), h.calls, h.calls, h.callers[g]); }
  }

  lemma FirstKnows(db: DB, calls: seq<Call>, c: Caller)
    requires Initial(c)
    ensures Knows(db, calls, c)
  {}

  lemma ActionKnows(h: Host, a: Action)
    requires AllKnow(h) && Possible(h, a)
    ensures AllKnow(Then(h, a))
  {
    hide Allowed, Effect, Knows, TurnOf, NextOf, Advanced, Initial, SagaStep, Protocol.BackgroundStep, LockOf;
    match a
    case Other(s) => WrittenKnows(h, s);
    case Sweep(s) => WrittenKnows(h, s);
    case Begin(_, c) => FirstKnows(h.db, h.calls, c);
    case Advance(f, reply) => AdvanceKnows(h, f, reply);
    case _ =>
  }

  lemma {:induction false} KnowsAlways(states: seq<Host>, actions: seq<Action>, i: nat)
    requires HostRun(states, actions) && i <= |actions|
    ensures AllKnow(states[i])
  {
    hide Possible, Then, Knows;
    if i > 0 {
      KnowsAlways(states, actions, i - 1);
      assert ActionAt(states, actions, i - 1);
      ActionKnows(states[i - 1], actions[i - 1]);
    }
  }

  /** Success was reported. */
  predicate Succeeded(c: Caller) {
    match c
    case Provisioning(_, _, pc) => pc.ProvisionEnd? && pc.created.Some?
    case Restoring(_, _, pc) => pc.RestoreEnd? && pc.restored.Some?
    case Dispatching(_, pc) => pc == DispatchEnd(true)
    case Stopping(_, pc) => pc == StopEnd(true)
  }

  /** A reported success is durable: the rows say so, whatever ran or crashed in between, and
      the external call behind it was made. A stop may succeed without a kill. */
  lemma ReportedIsDurable(states: seq<Host>, actions: seq<Action>, i: nat, f: Id)
    requires HostRun(states, actions) && i <= |actions| && f in states[i].callers && Succeeded(states[i].callers[f])
    ensures match states[i].callers[f]
      case Provisioning(op, _, pc) => SessionCreated(states[i].db, op, pc.created.value) && Protocol.Create(op) in states[i].calls
      case Restoring(op, _, pc) => SessionResumed(states[i].db, op, pc.restored.value) && Protocol.Resume(op) in states[i].calls
      case Dispatching(rq, _) =>
        Delivered(states[i].db, rq.bind.op) && Bound(states[i].db, rq.bind.op, rq.bind.attempt) && Protocol.Send(rq.bind.op) in states[i].calls
      case Stopping(rq, _) => StopIs(states[i].db, rq.op, rq.target) && Answered(states[i].db, rq.op)
  {
    hide Possible, Then;
    KnowsAlways(states, actions, i);
    assert Knows(states[i].db, states[i].calls, states[i].callers[f]);
  }

  // --- the timeout kill ---------------------------------------------------------------------------------------

  /** At the moment a StartTimeout kills, its row is still STOP_REQUESTED/IN_FLIGHT with the
      target of the request, the task is RUNNING, and attempt and session are quarantined. */
  lemma HostTimeoutKillIsContained(states: seq<Host>, actions: seq<Action>, i: nat, f: Id)
    requires HostRun(states, actions) && i <= |actions| && f in states[i].callers
    requires var c := states[i].callers[f]; c.Stopping? && c.stop.timed && c.kill.KillWorker?
    ensures var rq := states[i].callers[f].stop;
      && Protocol.Unanswered(states[i].db, rq.op) && states[i].db.stops[rq.op].target == rq.target && Protocol.Contained(states[i].db, rq.target)
  {
    hide Possible, Then, Protocol.Enabled, Protocol.Next, SagaInv, Protocol.Contained, Protocol.PermitsFresh, Protocol.CallsOnce, Protocol.StopsOwned;
    KnowsAlways(states, actions, i);
    var c := states[i].callers[f];
    assert Knows(states[i].db, states[i].calls, c);
    var ps, ms := HostRefines(states, actions, i);
    Protocol.ProtocolAlways(ps, ms, |ms|);
    assert Protocol.TimeoutFrame(ps[|ms|].db, ps[|ms|].frames[f]) && Represents(c, ps[|ms|].frames[f]);
    Protocol.UnansweredIsContained(states[i].db, c.stop.op);
  }
}
