/** What a coordinator does with the answers it gets: the rows it leaves behind after its external
    call, and the turn it takes after each status. Other callers, sweeps and writers may run
    between any two of its turns. */
module CoordinatorAnswers {
  import opened Domain
  import opened StopTransactions
  import opened History
  import opened Invariants
  import opened Steps
  import opened SweepRest
  import opened ScanSteps
  import opened Coordinators
  import opened CoordinatorProofs
  import Containment
  import CoordinatorReports
  import CoordinatorTheorems
  import Protocol
  import RowEffects
  import StopTheorems

  // --- one caller among others --------------------------------------------------------------

  /** The call of f that runs in state j is still running in state i. */
  ghost predicate Runs(states: seq<Host>, f: Id, j: int, i: int) {
    0 <= j <= i < |states| && forall k | j <= k <= i :: f in states[k].callers
  }

  predicate Turns(a: Action, f: Id) { a.Advance? && a.f == f }

  lemma OthersLeave(h: Host, a: Action, f: Id)
    requires Possible(h, a) && f in h.callers && f in Then(h, a).callers
    ensures !Turns(a, f) ==> Then(h, a).callers[f] == h.callers[f]
    ensures Turns(a, f) ==> Fits(TurnOf(h.callers[f], At(a.reply)), a.reply) && Then(h, a).callers[f] == NextOf(h.callers[f], a.reply, h.db)
  {
    hide Allowed, Effect, TurnOf, NextOf, Initial, SagaStep, Protocol.BackgroundStep, LockOf;
  }

  /** The transaction an action commits, if any. */
  function WrittenBy(h: Host, a: Action): Option<Step> {
    match a
    case Other(s) => Some(s)
    case Sweep(s) => Some(s)
    case Advance(f, reply) =>
      if f in h.callers && TurnOf(h.callers[f], At(reply)).Commits? && reply.Stored? && !reply.commit.Refused?
      then Some(TurnOf(h.callers[f], At(reply)).s) else None
    case _ => None
  }

  ghost predicate Writes(db: DB, s: Option<Step>, e: DB) {
    if s.Some? then Chain(db, s.value, e) else e == db
  }

  lemma ActionWrites(h: Host, a: Action)
    requires Possible(h, a)
    ensures Writes(h.db, WrittenBy(h, a), Then(h, a).db)
  {
    hide Allowed, Effect, TurnOf, NextOf, Initial, SagaStep, Protocol.BackgroundStep, LockOf;
  }

  lemma HostInv(states: seq<Host>, actions: seq<Action>, i: nat)
    requires HostRun(states, actions) && i <= |actions|
    ensures Inv(states[i].db)
  {
    hide Possible, Then, Inv, Protocol.Enabled, Protocol.Next, WellFormed, Represents, SagaCore;
    var ps, ms := HostRefines(states, actions, i);
    Protocol.ProtocolAlways(ps, ms, |ms|);
  }

  lemma {:induction false} HostLogged(states: seq<Host>, actions: seq<Action>, i: nat)
    requires HostRun(states, actions) && i <= |actions|
    ensures Containment.SendsLogged(states[i].db)
  {
    hide Possible, Then, Allowed, Effect, Containment.SendsLogged;
    if i == 0 {
      Containment.NothingLogged();
    } else {
      HostLogged(states, actions, i - 1);
      assert ActionAt(states, actions, i - 1);
      var h, a := states[i - 1], actions[i - 1];
      ActionWrites(h, a);
      if WrittenBy(h, a).Some? { Containment.SendsLoggedStays(h.db, WrittenBy(h, a).value); }
    }
  }

  // --- an ambiguous send is contained -------------------------------------------------------

  /** The rows a caller has read, if its send intent is still open: they show the open intent. */
  predicate SawOpen(db: DB, x: DispatchRequest, pc: DispatchPc) {
    var op := x.bind.op;
    SendLeft(db, op) ==>
      var b := db.dispatches[op].bound;
      && !pc.DispatchEnd?
      && (pc.RereadTask? || pc.RereadAttempt? || pc.RereadAudit? ==> pc.row.bound == b && pc.row.stage.SendRequested? && !pc.row.unknown)
      && (pc.RereadAttempt? || pc.RereadAudit? ==>
            b.attempt in db.attempts && pc.task.pair == b.pair && pc.task.state.Dispatched? && pc.task.current == db.attempts[b.attempt].lineage.number)
      && (pc.RereadAudit? ==> b.attempt in db.attempts && pc.attempt.lineage == db.attempts[b.attempt].lineage && pc.attempt.ended.None?)
  }

  predicate AfterSend(pc: DispatchPc) {
    pc.ConfirmDelivery? || pc.RereadOperation? || pc.RereadTask? || pc.RereadAttempt? || pc.RereadAudit? || pc.ContainDelivery? || pc.DispatchEnd?
  }

  /** A requested send is never requested again: its intent was open before if it is open now. */
  lemma OpenWasOpen(db: DB, e: DB, op: Id)
    requires Inv(db) && Kept(db, e) && PromptsKept(db, e) && Protocol.Committed(db, Protocol.Send(op)) && SendLeft(e, op)
    ensures SendLeft(db, op) && e.dispatches[op].bound == db.dispatches[op].bound
    ensures var a := db.dispatches[op].bound.attempt; a in db.attempts && a in e.attempts && e.attempts[a].lineage == db.attempts[a].lineage
  {
    hide Inv;
    Containment.SendLeftIsOpen(db, op);
    var a := db.dispatches[op].bound.attempt;
    assert DispatchForward(db.dispatches[op], e.dispatches[op]) && AttemptForward(db.attempts[a], e.attempts[a]);
    assert Prompting(e, a);
  }

  lemma SawStays(db: DB, e: DB, x: DispatchRequest, pc: DispatchPc)
    requires Inv(db) && Protocol.Committed(db, Protocol.Send(x.bind.op)) && SawOpen(db, x, pc)
    requires e == db || (Kept(db, e) && PromptsKept(db, e))
    ensures SawOpen(e, x, pc)
  {
    hide Inv, Kept, PromptsKept;
    if SendLeft(e, x.bind.op) && e != db { OpenWasOpen(db, e, x.bind.op); }
  }

  /** The containing transaction of the caller did not commit, or one of its reads failed. */
  predicate Fails(h: Host, a: Action, f: Id) {
    && Turns(a, f) && f in h.callers
    && ((a.reply.Read? && !a.reply.ok)
        || (a.reply.Stored? && a.reply.commit.Refused? && h.callers[f].Dispatching? && h.callers[f].send.ContainDelivery?))
  }

  lemma SawNext(db: DB, e: DB, x: DispatchRequest, pc: DispatchPc, reply: Reply)
    requires Inv(db) && Containment.SendsLogged(db) && CoordinatorReports.Bound(db, x.bind.op, x.bind.attempt)
    requires Fits(DispatchTurn(x, pc, At(reply)), reply) && AfterSend(pc) && SawOpen(db, x, pc)
    requires !(reply.Read? && !reply.ok) && !(reply.Stored? && reply.commit.Refused? && pc.ContainDelivery?)
    requires pc.ConfirmDelivery? || pc.ContainDelivery? || e == db
    requires reply.Stored? && !reply.commit.Refused? && pc.ConfirmDelivery? ==> !SendLeft(e, x.bind.op)
    requires reply.Stored? && !reply.commit.Refused? && pc.ContainDelivery? ==> !SendLeft(e, x.bind.op)
    ensures AfterSend(DispatchNext(x, pc, reply, db)) && SawOpen(e, x, DispatchNext(x, pc, reply, db))
  {
    hide Inv, Containment.SendsLogged, Containment.FoundIn;
    Containment.SendLeftIsOpen(db, x.bind.op);
    if pc.RereadAudit? && SendLeft(db, x.bind.op) { RequestIsFound(db, x.bind.op); }
  }

  lemma RequestIsFound(db: DB, op: Id)
    requires Containment.SendsLogged(db) && SendLeft(db, op)
    ensures Containment.FoundIn(db.log, op, db.dispatches[op].bound).requested
  {
    assert Containment.SendLogged(db.log, op, db.dispatches[op]);
    Containment.FoundEvent(db.log, op, db.dispatches[op].bound, Containment.RequestedEvent(op, db.dispatches[op].bound));
  }

  /** Either transaction closes the intent. */
  lemma Closes(db: DB, s: Step, e: DB, op: Id)
    requires RowEffects.Finds(db, s) && RowEffects.OperationRows(db, s, e)
    requires s.DispatchStep? && (s.dispatch.ConfirmSend? || s.dispatch.UnknownDelivery?) && s.dispatch.op == op
    ensures !SendLeft(e, op)
  {
    assert RowEffects.Row(e.dispatches, op) == RowEffects.DispatchAfter(db, s, op);
  }

  lemma SendTurn(h: Host, a: Action, f: Id, x: DispatchRequest, pc: DispatchPc)
    requires Possible(h, a) && Inv(h.db) && Containment.SendsLogged(h.db) && Protocol.Committed(h.db, Protocol.Send(x.bind.op))
    requires CoordinatorReports.Bound(h.db, x.bind.op, x.bind.attempt) || pc.DispatchEnd?
    requires f in h.callers && f in Then(h, a).callers && h.callers[f] == Dispatching(x, pc) && AfterSend(pc) && SawOpen(h.db, x, pc) && !Fails(h, a, f)
    ensures var c := Then(h, a).callers[f]; c.Dispatching? && c.dispatch == x && AfterSend(c.send) && SawOpen(Then(h, a).db, x, c.send)
  {
    hide Inv, Allowed, Effect, Containment.SendsLogged, Possible, Then, SendLeft, Kept, PromptsKept, RowEffects.Finds, RowEffects.PairRows, RowEffects.OperationRows;
    ActionWrites(h, a);
    OthersLeave(h, a, f);
    var s, e := WrittenBy(h, a), Then(h, a).db;
    if s.Some? { RowEffects.StepMoves(h.db, s.value); }
    if !Turns(a, f) {
      if s.Some? { StepPrompts(h.db, s.value); }
      SawStays(h.db, e, x, pc);
    } else {
      if s.Some? { Closes(h.db, s.value, e, x.bind.op); }
      SawNext(h.db, e, x, pc, a.reply);
    }
  }

  lemma {:induction false} SendTracked(states: seq<Host>, actions: seq<Action>, j: nat, i: nat, f: Id)
    requires HostRun(states, actions) && j < i <= |actions| && Runs(states, f, j, i)
    requires Turns(actions[j], f) && actions[j].reply.Back? && states[j].callers[f].Dispatching?
    requires forall k | j < k < i :: !Fails(states[k], actions[k], f)
    ensures var c := states[i].callers[f];
      c.Dispatching? && c.dispatch == states[j].callers[f].dispatch && AfterSend(c.send) && SawOpen(states[i].db, c.dispatch, c.send)
    ensures Protocol.Committed(states[i].db, Protocol.Send(states[j].callers[f].dispatch.bind.op))
  {
    hide Possible, Then, Inv, Allowed, Effect, Containment.SendsLogged, Protocol.Committed, SendLeft;
    assert ActionAt(states, actions, i - 1);
    ActionWrites(states[i - 1], actions[i - 1]);
    if i == j + 1 {
      OthersLeave(states[j], actions[j], f);
      CoordinatorTheorems.HostCallFollowsIntent(states, actions, j, f);
    } else {
      SendTracked(states, actions, j, i - 1, f);
      var c := states[i - 1].callers[f];
      HostInv(states, actions, i - 1);
      HostLogged(states, actions, i - 1);
      CoordinatorReports.KnowsAlways(states, actions, i - 1);
      assert CoordinatorReports.Knows(states[i - 1].db, states[i - 1].calls, c);
      var s := WrittenBy(states[i - 1], actions[i - 1]);
      if s.Some? {
        RowEffects.StepMoves(states[i - 1].db, s.value);
        Protocol.CommittedStays(states[i - 1].db, s.value, states[i].db, Protocol.Send(c.dispatch.bind.op));
      }
      SendTurn(states[i - 1], actions[i - 1], f, c.dispatch, c.send);
    }
  }

  /** A Dispatch that has made its send and has ended leaves no open send intent, whatever AO
      answered and whoever ran in between, unless one of its own reads failed or its containing
      transaction did not commit. */
  lemma AmbiguousSendIsContained(states: seq<Host>, actions: seq<Action>, j: nat, i: nat, f: Id)
    requires HostRun(states, actions) && j < i <= |actions| && Runs(states, f, j, i)
    requires Turns(actions[j], f) && actions[j].reply.Back? && states[j].callers[f].Dispatching?
    requires states[i].callers[f].Dispatching? && states[i].callers[f].send.DispatchEnd?
    requires forall k | j < k < i :: !Fails(states[k], actions[k], f)
    ensures !SendLeft(states[i].db, states[j].callers[f].dispatch.bind.op)
  {
    hide HostRun, SendLeft;
    SendTracked(states, actions, j, i, f);
  }

  // --- an answered kill is recorded ---------------------------------------------------------

  /** The row shows what AO answered to the kill; later only an observation of the accepted call
      or the acceptance of its risk is added. */
  predicate KillRecorded(db: DB, rq: StopRequest, result: Result) {
    && rq.op in db.stops
    && var row := db.stops[rq.op];
    if result == Accepted(rq.target.session) then
      && row.stage in {StopCallSucceeded, StopTerminationConfirmed, StopTargetAbsent}
      && row.callAt.Some? && row.deadline == Some(row.callAt.value + rq.killTimeout)
    else if result == TargetMissing then row.stage == StopTargetAbsent && row.resolution == TargetAbsent
    else if result == Rejected then row.stage == StopCallFailed && row.resolution in {CallFailed, RiskAccepted}
    else row.stage == StopRequested && row.resolution in {CallOutcomeUnknown, RiskAccepted}
  }

  /** The transaction that records the answer is still to come. */
  predicate KillPending(pc: StopPc, rq: StopRequest, result: Result) {
    if result == Accepted(rq.target.session) then pc.AcceptCall?
    else pc == (if result == TargetMissing then SettleStop(StopRequested, StopTargetAbsent, TargetAbsent, None, false)
                else if result == Rejected then SettleStop(StopRequested, StopCallFailed, CallFailed, None, false)
                else SettleStop(StopRequested, StopRequested, CallOutcomeUnknown, None, false))
  }

  lemma RecordStays(db: DB, e: DB, rq: StopRequest, result: Result)
    requires KillRecorded(db, rq, result) && StopRow(db.stops[rq.op])
    requires e == db || OperationsKept(db, e)
    ensures KillRecorded(e, rq, result)
  {
    if e != db { assert StopForward(db.stops[rq.op], e.stops[rq.op]); }
  }

  lemma RecordMade(db: DB, s: Step, e: DB, rq: StopRequest, pc: StopPc, at: Time, result: Result)
    requires RowEffects.Finds(db, s) && RowEffects.OperationRows(db, s, e) && KillPending(pc, rq, result) && StopTurn(rq, pc, at) == Commits(s)
    ensures KillRecorded(e, rq, result)
  {
    assert RowEffects.Row(e.stops, rq.op) == RowEffects.StopAfter(db, s, rq.op);
  }

  lemma KillTurn(h: Host, a: Action, f: Id, rq: StopRequest, pc: StopPc, result: Result)
    requires Possible(h, a) && Inv(h.db) && f in h.callers && f in Then(h, a).callers && h.callers[f] == Stopping(rq, pc)
    requires KillPending(pc, rq, result) || KillRecorded(h.db, rq, result)
    requires Turns(a, f) && a.reply.Stored? ==> !a.reply.commit.Refused?
    ensures var c := Then(h, a).callers[f]; c.Stopping? && c.stop == rq && (KillPending(c.kill, rq, result) || KillRecorded(Then(h, a).db, rq, result))
  {
    hide Inv, Allowed, Effect, Possible, Then, KillRecorded, LineagesKept, OperationsKept, RowEffects.Finds, RowEffects.PairRows, RowEffects.OperationRows;
    ActionWrites(h, a);
    OthersLeave(h, a, f);
    if WrittenBy(h, a).Some? { RowEffects.StepMoves(h.db, WrittenBy(h, a).value); }
    if KillRecorded(h.db, rq, result) {
      RecordedIsRow(h.db, rq, result);
      RecordStays(h.db, Then(h, a).db, rq, result);
    } else if Turns(a, f) {
      RecordMade(h.db, WrittenBy(h, a).value, Then(h, a).db, rq, pc, At(a.reply), result);
    }
  }

  lemma RecordedIsRow(db: DB, rq: StopRequest, result: Result)
    requires Inv(db) && KillRecorded(db, rq, result)
    ensures rq.op in db.stops && StopRow(db.stops[rq.op])
  {
    hide Inv;
    StopTheorems.StopRow1(db, rq.op);
  }

  lemma {:induction false} KillTracked(states: seq<Host>, actions: seq<Action>, j: nat, i: nat, f: Id)
    requires HostRun(states, actions) && j < i <= |actions| && Runs(states, f, j, i)
    requires Turns(actions[j], f) && actions[j].reply.Back? && states[j].callers[f].Stopping?
    requires forall k | j < k < i && Turns(actions[k], f) && actions[k].reply.Stored? :: !actions[k].reply.commit.Refused?
    ensures var c, rq := states[i].callers[f], states[j].callers[f].stop;
      c.Stopping? && c.stop == rq && (KillPending(c.kill, rq, actions[j].reply.result) || KillRecorded(states[i].db, rq, actions[j].reply.result))
  {
    hide Possible, Then, Inv, KillRecorded;
    assert ActionAt(states, actions, i - 1);
    if i == j + 1 {
      OthersLeave(states[j], actions[j], f);
    } else {
      KillTracked(states, actions, j, i - 1, f);
      HostInv(states, actions, i - 1);
      KillTurn(states[i - 1], actions[i - 1], f, states[j].callers[f].stop, states[i - 1].callers[f].kill, actions[j].reply.result);
    }
  }

  /** A Start or StartTimeout whose kill was answered and whose writes commit ends with a row that
      shows the answer: the call and its deadline, an absent target, a refusal, or nothing known. */
  lemma AnsweredKillIsRecorded(states: seq<Host>, actions: seq<Action>, j: nat, i: nat, f: Id)
    requires HostRun(states, actions) && j < i <= |actions| && Runs(states, f, j, i)
    requires Turns(actions[j], f) && actions[j].reply.Back? && states[j].callers[f].Stopping?
    requires states[i].callers[f].Stopping? && states[i].callers[f].kill.StopEnd?
    requires forall k | j < k < i && Turns(actions[k], f) && actions[k].reply.Stored? :: !actions[k].reply.commit.Refused?
    ensures KillRecorded(states[i].db, states[j].callers[f].stop, actions[j].reply.result)
  {
    hide HostRun, KillRecorded;
    KillTracked(states, actions, j, i, f);
  }

  // --- a confirmation that took effect is reported ------------------------------------------

  /** The task has gone on to another attempt. */
  predicate Superseded(db: DB, op: Id) {
    && op in db.dispatches
    && var b := db.dispatches[op].bound;
    && b.attempt in db.attempts && b.task in db.tasks && db.attempts[b.attempt].lineage.number < db.tasks[b.task].current
  }

  /** The rows that a caller reads again show its confirmation. */
  predicate SawConfirmed(db: DB, c: Caller) {
    match c
    case Provisioning(op, _, pc) =>
      (pc.RereadCreate? && CoordinatorReports.SessionCreated(db, op, pc.session)) || (pc.ProvisionEnd? && pc.created.Some?)
    case Restoring(op, _, pc) =>
      (pc.RereadRestore? && CoordinatorReports.SessionResumed(db, op, pc.gen) && db.restores[op].http200At.Some?) || (pc.RestoreEnd? && pc.restored.Some?)
    case Dispatching(rq, pc) =>
      var op := rq.bind.op;
      && CoordinatorReports.Bound(db, op, rq.bind.attempt) && db.dispatches[op].stage.SendConfirmed?
      && var b := db.dispatches[op].bound;
      && (pc.RereadOperation? || pc.RereadTask? || pc.RereadAttempt? || pc.RereadAudit? || (pc.DispatchEnd? && (pc.ok || Superseded(db, op))))
      && (pc.RereadTask? || pc.RereadAttempt? || pc.RereadAudit? ==> pc.row.bound == b && pc.row.stage.SendConfirmed?)
      && (pc.RereadAttempt? || pc.RereadAudit? ==>
            b.attempt in db.attempts && pc.task.pair == b.pair && (pc.task.current == db.attempts[b.attempt].lineage.number || Superseded(db, op)))
      && (pc.RereadAudit? ==> b.attempt in db.attempts && pc.attempt.lineage == db.attempts[b.attempt].lineage)
    case Stopping(_, _) => false
  }

  /** The transaction by which a caller confirms what its call brought back. */
  predicate Confirmation(s: Step) {
    || (s.PairStep? && s.pair.ConfirmProvision?) || (s.RestoreStep? && s.restore.ConfirmRestore?) || (s.DispatchStep? && s.dispatch.ConfirmSend?)
  }

  /** The rows a confirmation is about only move forward. */
  lemma ConfirmedStays(db: DB, s: Step, e: DB, c: Caller)
    requires Inv(db) && RowEffects.Moves(db, s, e) && SawConfirmed(db, c)
    ensures SawConfirmed(e, c)
  {
    hide Inv, RowEffects.Finds, RowEffects.PairRows, RowEffects.OperationRows;
    match c
    case Provisioning(op, _, pc) => if pc.RereadCreate? { CoordinatorReports.CreatedStays(db, s, e, op, pc.session); }
    case Restoring(op, _, pc) => if pc.RereadRestore? { ResumedStays(db.restores[op], e.restores[op]); }
    case Dispatching(rq, pc) =>
      var op := rq.bind.op;
      Containment.SendLeftIsOpen(db, op);
      var b := db.dispatches[op].bound;
      assert DispatchForward(db.dispatches[op], e.dispatches[op]) && AttemptForward(db.attempts[b.attempt], e.attempts[b.attempt]) && TaskForward(db.tasks[b.task], e.tasks[b.task]);
  }

  lemma ResumedStays(was: Restore, now: Restore)
    requires RestoreForward(was, now) && was.stage.RestoreConfirmed?
    ensures now.stage.RestoreConfirmed? && now.observed == was.observed && now.http200At == was.http200At
  {}

  lemma ConfirmedNext(db: DB, c: Caller, reply: Reply)
    requires Inv(db) && Containment.SendsLogged(db) && SawConfirmed(db, c) && Fits(TurnOf(c, At(reply)), reply) && (reply.Read? ==> reply.ok)
    ensures SawConfirmed(db, NextOf(c, reply, db))
  {
    hide Inv, Containment.SendsLogged, Containment.FoundIn;
    if c.Dispatching? {
      Containment.SendLeftIsOpen(db, c.dispatch.bind.op);
      CurrentBound(db, c.dispatch.bind.op);
      ConfirmationIsFound(db, c.dispatch.bind.op);
    }
  }

  lemma CurrentBound(db: DB, op: Id)
    requires Inv(db) && op in db.dispatches
    ensures var b := db.dispatches[op].bound; b.attempt in db.attempts && b.task in db.tasks && db.attempts[b.attempt].lineage.number <= db.tasks[b.task].current
  {
    assert DispatchRefs(db.tasks, db.attempts, db.dispatches) && AttemptRefs(db.tasks, db.contracts, db.attempts);
  }

  lemma ConfirmationIsFound(db: DB, op: Id)
    requires Containment.SendsLogged(db) && op in db.dispatches && db.dispatches[op].stage.SendConfirmed?
    ensures Containment.FoundIn(db.log, op, db.dispatches[op].bound).confirmed
  {
    var b := db.dispatches[op].bound;
    assert Containment.SendLogged(db.log, op, db.dispatches[op]);
    Containment.FoundEvent(db.log, op, b, SendConfirmedEvent(op, b.pair, b.task, b.attempt));
  }

  lemma ConfirmedNow(db: DB, e: DB, c: Caller, reply: Reply, s: Step)
    requires RowEffects.Moves(db, s, e) && TurnOf(c, At(reply)) == Commits(s) && reply.Stored? && !reply.commit.Refused? && Confirmation(s)
    requires c.Dispatching? ==> CoordinatorReports.Bound(db, c.dispatch.bind.op, c.dispatch.bind.attempt)
    ensures SawConfirmed(e, NextOf(c, reply, db))
  {
    hide Kept, RowEffects.MoreRisk;
    match c
    case Provisioning(op, _, _) => assert RowEffects.Row(e.provisions, op) == RowEffects.ProvisionAfter(db, s, op);
    case Restoring(op, _, _) => assert RowEffects.Row(e.restores, op) == RowEffects.RestoreAfter(db, s, op);
    case Dispatching(rq, _) => assert RowEffects.Row(e.dispatches, rq.bind.op) == RowEffects.DispatchAfter(db, s, rq.bind.op);
    case Stopping(_, _) =>
  }

  lemma ConfirmedTurn(h: Host, a: Action, f: Id)
    requires Possible(h, a) && Inv(h.db) && Containment.SendsLogged(h.db)
    requires f in h.callers && f in Then(h, a).callers && SawConfirmed(h.db, h.callers[f]) && (Turns(a, f) && a.reply.Read? ==> a.reply.ok)
    ensures SawConfirmed(Then(h, a).db, Then(h, a).callers[f])
  {
    hide Inv, Allowed, Effect, Containment.SendsLogged, Possible, Then, SawConfirmed, NextOf, TurnOf, RowEffects.Moves;
    ActionWrites(h, a);
    OthersLeave(h, a, f);
    if Turns(a, f) { OnlyReads(h.db, h.callers[f], a.reply); ConfirmedNext(h.db, h.callers[f], a.reply); }
    else if WrittenBy(h, a).Some? {
      RowEffects.StepMoves(h.db, WrittenBy(h, a).value);
      ConfirmedStays(h.db, WrittenBy(h, a).value, Then(h, a).db, h.callers[f]);
    }
  }

  lemma OnlyReads(db: DB, c: Caller, reply: Reply)
    requires SawConfirmed(db, c) && Fits(TurnOf(c, At(reply)), reply)
    ensures !TurnOf(c, At(reply)).Commits?
  {}

  lemma {:induction false} ConfirmedTracked(states: seq<Host>, actions: seq<Action>, j: nat, i: nat, f: Id)
    requires HostRun(states, actions) && j < i <= |actions| && Runs(states, f, j, i)
    requires Turns(actions[j], f) && WrittenBy(states[j], actions[j]).Some? && Confirmation(WrittenBy(states[j], actions[j]).value)
    requires forall k | j < k < i && Turns(actions[k], f) && actions[k].reply.Read? :: actions[k].reply.ok
    ensures SawConfirmed(states[i].db, states[i].callers[f])
  {
    hide Possible, Then, Inv, Containment.SendsLogged, SawConfirmed, Allowed, Effect, RowEffects.Moves;
    assert ActionAt(states, actions, i - 1);
    HostInv(states, actions, i - 1);
    HostLogged(states, actions, i - 1);
    if i == j + 1 {
      OthersLeave(states[j], actions[j], f);
      ActionWrites(states[j], actions[j]);
      CoordinatorReports.KnowsAlways(states, actions, j);
      assert CoordinatorReports.Knows(states[j].db, states[j].calls, states[j].callers[f]);
      RowEffects.StepMoves(states[j].db, WrittenBy(states[j], actions[j]).value);
      ConfirmedNow(states[j].db, states[i].db, states[j].callers[f], actions[j].reply, WrittenBy(states[j], actions[j]).value);
    } else {
      ConfirmedTracked(states, actions, j, i - 1, f);
      ConfirmedTurn(states[i - 1], actions[i - 1], f);
    }
  }

  /** A Provision, Restore or Dispatch whose confirmation took effect, even if it saw the commit
      fail, reports success unless one of its own reads fails; a Dispatch may find instead that
      the task has gone on to another attempt. */
  lemma ConfirmationIsReported(states: seq<Host>, actions: seq<Action>, j: nat, i: nat, f: Id)
    requires HostRun(states, actions) && j < i <= |actions| && Runs(states, f, j, i)
    requires Turns(actions[j], f) && WrittenBy(states[j], actions[j]).Some? && Confirmation(WrittenBy(states[j], actions[j]).value)
    requires forall k | j < k < i && Turns(actions[k], f) && actions[k].reply.Read? :: actions[k].reply.ok
    requires TurnOf(states[i].callers[f], 0).Finished?
    ensures CoordinatorReports.Succeeded(states[i].callers[f])
         || (states[i].callers[f].Dispatching? && Superseded(states[i].db, states[i].callers[f].dispatch.bind.op))
  {
    hide HostRun, WrittenBy, Confirmation;
    ConfirmedTracked(states, actions, j, i, f);
  }

  // --- what each answer decides -------------------------------------------------------------

  /** f takes a turn at j and none from then to i. */
  ghost predicate LastTurn(states: seq<Host>, actions: seq<Action>, j: nat, i: nat, f: Id) {
    && HostRun(states, actions) && j < i <= |actions| && Runs(states, f, j, i)
    && Turns(actions[j], f) && forall k | j < k < i :: !Turns(actions[k], f)
  }

  lemma {:induction false} CallerWaits(states: seq<Host>, actions: seq<Action>, j: nat, i: nat, f: Id)
    requires LastTurn(states, actions, j, i, f)
    ensures Fits(TurnOf(states[j].callers[f], At(actions[j].reply)), actions[j].reply)
    ensures states[i].callers[f] == NextOf(states[j].callers[f], actions[j].reply, states[j].db)
  {
    hide Possible, Then, TurnOf, NextOf;
    assert ActionAt(states, actions, i - 1);
    OthersLeave(states[i - 1], actions[i - 1], f);
    if i > j + 1 { CallerWaits(states, actions, j, i - 1, f); }
  }

  /** Dispatch: before the send a status closes the attempt, holds or rejects it, or lets the
      intent be written; after it, only AO's acceptance for the own session is a confirmation. */
  lemma DispatchAnswers(states: seq<Host>, actions: seq<Action>, j: nat, i: nat, f: Id, at: Time)
    requires LastTurn(states, actions, j, i, f) && states[j].callers[f].Dispatching?
    ensures var rq, reply, next := states[j].callers[f].dispatch, actions[j].reply, TurnOf(states[i].callers[f], at); var x := rq.bind;
      && (reply.Status? ==> next == Commits(
            if reply.answer == AoNotFound then ExecutionStep(Terminal(x.task, Dispatched, x.attempt, SessionAbsent, at))
            else if reply.answer == AoUnavailable then DispatchStep(Hold(x.op, RecoveryPending))
            else if !reply.answer.AoStatus? then DispatchStep(Hold(x.op, PreSendProtocolUnverified))
            else if reply.answer.session != x.session then ExecutionStep(Terminal(x.task, Dispatched, x.attempt, PreSendIdentityMismatch, at))
            else if reply.answer.gen != x.gen then ExecutionStep(Terminal(x.task, Dispatched, x.attempt, StaleExecutionGeneration, at))
            else if reply.answer.terminated then ExecutionStep(Terminal(x.task, Dispatched, x.attempt, WorkerTerminationUnknown, at))
            else if reply.answer.activity in {ActivityIdle, ActivityWaitingInput}
              then DispatchStep(RequestSend(x.op, Observation(x.session, x.gen, false), reply.answer.activity))
            else DispatchStep(Reject(x.op, reply.answer.activity))))
      && (reply.Back? && reply.result == Accepted(x.session) ==> next == Commits(DispatchStep(ConfirmSend(x.op, true, at, rq.duration, rq.policy))))
      && (reply.Back? && reply.result != Accepted(x.session) ==> next == Reads)
      && (states[j].callers[f].send.RequestIntent? ==> reply.Stored? && next == if reply.commit == Done then Calls(Protocol.Send(x.op)) else Finished)
      && (next.Calls? ==> states[j].callers[f].send.RequestIntent?)
  {
    hide HostRun;
    CallerWaits(states, actions, j, i, f);
  }

  /** Dispatch allocates a READY task and goes on with a DISPATCHED one only if its rows are those of
      the same allocation, current, open and unsent; only then it asks for the worker's status. */
  lemma DispatchStarts(states: seq<Host>, actions: seq<Action>, j: nat, i: nat, f: Id, at: Time)
    requires LastTurn(states, actions, j, i, f) && states[j].callers[f].Dispatching?
    ensures var x, pc, reply, db, next := states[j].callers[f].dispatch.bind, states[j].callers[f].send, actions[j].reply, states[j].db, TurnOf(states[i].callers[f], at);
      && (pc.LoadTask? || pc.LoadAttempt? || pc.LoadOperation? ==> reply.Read?)
      && (pc.LoadTask? && reply.Read? ==>
            next == if !reply.ok || x.task !in db.tasks then Finished
                    else if db.tasks[x.task].state == Ready then Commits(DispatchStep(Prepare(x)))
                    else if db.tasks[x.task].state == Dispatched then Reads else Finished)
      && (pc.LoadAttempt? && reply.Read? ==> next == if reply.ok && x.attempt in db.attempts then Reads else Finished)
      && (pc.LoadOperation? && reply.Read? ==>
            var l := pc.attempt.lineage;
            next == if reply.ok && x.op in db.dispatches && db.dispatches[x.op].bound.attempt == x.attempt && db.dispatches[x.op].stage == DispatchBound
                       && l == Lineage(x.task, x.contract, pc.task.current, x.session, x.gen) && pc.attempt.ended == None
                    then Observes else Finished)
      && (pc.PrepareAttempt? ==> reply.Stored? && next == if reply.commit == Done then Observes else Finished)
      && (next == Observes ==> pc.PrepareAttempt? || pc.LoadOperation?)
  {
    hide HostRun;
    CallerWaits(states, actions, j, i, f);
  }

  /** Start: a status before the kill lets it through for the named worker alone, alive, and for a
      timeout only while it can be interrupted; otherwise it is the result, as far as it is one. */
  lemma StopAnswers(states: seq<Host>, actions: seq<Action>, j: nat, i: nat, f: Id, at: Time)
    requires LastTurn(states, actions, j, i, f) && states[j].callers[f].Stopping? && states[j].callers[f].kill.ObserveTarget? && actions[j].reply.Status?
    ensures var rq, answer, next := states[j].callers[f].stop, actions[j].reply.answer, TurnOf(states[i].callers[f], at); var t := rq.target;
      && (answer == AoNotFound ==> next == Commits(StopStep(CommitOutcome(rq.op, Outcome(StopRequested, StopTargetAbsent, TargetAbsent, at, None)))))
      && (answer.AoStatus? && answer.session == t.session && answer.gen != t.gen ==>
            next == Commits(StopStep(CommitOutcome(rq.op,
              Outcome(StopRequested, StopRequested, GenerationMismatch, at, Some(Observation(t.session, answer.gen, answer.terminated)))))))
      && (answer.AoStatus? && answer.session == t.session && answer.gen == t.gen && answer.terminated ==>
            next == Commits(StopStep(CommitOutcome(rq.op, Outcome(StopRequested, StopRequested, EffectUnproven, at, Some(Observation(t.session, t.gen, true)))))))
      && (answer.AoStatus? && answer.session == t.session && answer.gen == t.gen && !answer.terminated ==>
            if !rq.timed then next == Calls(Protocol.Kill(rq.op))
            else if answer.activity in {ActivityActive, ActivityWaitingInput} then next == Reads else next == Finished)
      && (answer != AoNotFound && !(answer.AoStatus? && answer.session == t.session) ==> next == Finished)
  {
    hide HostRun;
    CallerWaits(states, actions, j, i, f);
  }

  /** Start asks the operator boundary first, unless it stops a running attempt; StartTimeout
      acquires its Pair first. */
  lemma StopBegins(h: Host, f: Id, c: Caller, at: Time)
    requires Possible(h, Begin(f, c)) && c.Stopping?
    ensures TurnOf(Then(h, Begin(f, c)).callers[f], at) ==
      if c.stop.timed then Acquires(c.stop.target.pair)
      else if c.stop.target.purpose == RunningAttemptStop then Reservation(c.stop, c.stop.actor, None)
      else Verifies
  {}

  /** Start, around the kill: who reserves and for whom, what a claim has seen, when a timeout may
      still kill, and what a caller makes of a row it had to read again. */
  lemma StopTurns(states: seq<Host>, actions: seq<Action>, j: nat, i: nat, f: Id, at: Time)
    requires LastTurn(states, actions, j, i, f) && states[j].callers[f].Stopping?
    ensures var rq, pc, reply, db, next := states[j].callers[f].stop, states[j].callers[f].kill, actions[j].reply, states[j].db, TurnOf(states[i].callers[f], at);
      var op, t := rq.op, rq.target;
      var alive := reply.Status? && reply.answer.AoStatus? && reply.answer.session == t.session && reply.answer.gen == t.gen && !reply.answer.terminated;
      && (pc.Preflight? ==>
            next == if alive && reply.answer.activity in {ActivityActive, ActivityWaitingInput} then Reservation(rq, rq.actor, None) else Finished)
      && (pc.VerifyOperator? ==> reply.Principal?)
      && (reply.Principal? ==>
            next == if reply.verified.None? then Finished
            else if t.restore.Some? && t.purpose == PairMaintenance then Observes
            else Reservation(rq, reply.verified.value, None))
      && (pc.ObserveClaim? ==> next == if alive then Reservation(rq, pc.principal, Some(Observation(t.session, t.gen, false))) else Finished)
      && (pc.AcquireScope? ==> reply.Scope? && next == if reply.granted then Observes else Finished)
      && (pc.ReserveIntent? ==> reply.Stored? && next == if reply.commit == Done then Observes else Finished)
      && (pc.AcceptCall? ==> next == Reads)
      && (pc.ValidateOwner? ==> reply.Read? && next == if reply.ok && TimeoutEffectOwner(db, op) then Calls(Protocol.Kill(op)) else Finished)
      && (pc.RereadStop? || pc.RereadAccepted? ==> reply.Read?)
      && (pc.RereadStop? && reply.Read? ==>
            next == if reply.ok && op in db.stops && db.stops[op].stage == StopRequested && db.stops[op].resolution == InFlight
            then Commits(StopStep(CommitOutcome(op, Outcome(StopRequested, StopRequested, CallOutcomeUnknown, at, None)))) else Finished)
      && (pc.RereadAccepted? && reply.Read? ==>
            next == if reply.ok && op in db.stops && db.stops[op].stage == StopCallSucceeded && db.stops[op].resolution == InFlight && db.stops[op].deadline.Some?
            then Observes else Finished)
  {
    hide HostRun, TimeoutEffectOwner;
    CallerWaits(states, actions, j, i, f);
  }

  /** Start without a restore reserves the stop itself; with one it claims the cleanup. */
  function Reservation(rq: StopRequest, principal: Id, seen: Option<Observation>): Turn {
    Commits(if rq.target.restore.Some? then RestoreStep(ClaimCleanup(rq.op, rq.target, principal, seen)) else StopStep(ReserveStop(rq.op, rq.target)))
  }

  /** Observe: after an accepted kill, termination is confirmed only by the named worker seen
      terminated before the deadline; past it the confirmation has timed out. */
  lemma ConfirmationAnswers(states: seq<Host>, actions: seq<Action>, j: nat, i: nat, f: Id, at: Time)
    requires LastTurn(states, actions, j, i, f) && states[j].callers[f].Stopping? && states[j].callers[f].kill.ObserveAccepted? && actions[j].reply.Status?
    ensures var rq, answer, next := states[j].callers[f].stop, actions[j].reply.answer, TurnOf(states[i].callers[f], at);
      var t, late := rq.target, actions[j].reply.now >= states[j].callers[f].kill.deadline;
      && (answer == AoNotFound ==> next == Commits(StopStep(CommitOutcome(rq.op, Outcome(StopCallSucceeded, StopTargetAbsent, TargetAbsent, at, None)))))
      && (answer.AoStatus? && answer.session == t.session && answer.gen != t.gen ==>
            next == Commits(StopStep(CommitOutcome(rq.op,
              Outcome(StopCallSucceeded, StopCallSucceeded, GenerationMismatch, at, Some(Observation(t.session, answer.gen, answer.terminated)))))))
      && (answer.AoStatus? && answer.session == t.session && answer.gen == t.gen ==>
            next == (if late then Commits(StopStep(CommitOutcome(rq.op,
                                    Outcome(StopCallSucceeded, StopCallSucceeded, ConfirmationTimeout, at, Some(Observation(t.session, t.gen, answer.terminated))))))
                     else if answer.terminated then Commits(StopStep(CommitOutcome(rq.op,
                                    Outcome(StopCallSucceeded, StopTerminationConfirmed, TerminationConfirmed, at, Some(Observation(t.session, t.gen, true))))))
                     else Finished))
      && (answer == AoUnavailable || answer == AoProtocolError ==>
            next == if late then Commits(StopStep(CommitOutcome(rq.op, Outcome(StopCallSucceeded, StopCallSucceeded, ConfirmationTimeout, at, None)))) else Finished)
      && (answer == AoEmpty || (answer.AoStatus? && answer.session != t.session) ==> next == Finished)
  {
    hide HostRun;
    CallerWaits(states, actions, j, i, f);
  }

  /** Restore: the resumed worker is confirmed at the generation that both the resume and the
      status named, and in the state the status showed; any other reply leaves it unknown. */
  lemma RestoreAnswers(states: seq<Host>, actions: seq<Action>, j: nat, i: nat, f: Id, at: Time)
    requires LastTurn(states, actions, j, i, f) && states[j].callers[f].Restoring?
    ensures var op, tuple, reply, next := states[j].callers[f].op, states[j].callers[f].tuple, actions[j].reply, TurnOf(states[i].callers[f], at);
      && (reply.Back? ==>
            if reply.result.Resumed? && reply.result.named == tuple.session && reply.result.session == tuple.session
            then next == Observes && states[i].callers[f] == Restoring(op, tuple, ObserveResumed(reply.result.gen))
            else next == Commits(RestoreStep(UnknownRestore(op))))
      && (reply.Status? ==> states[j].callers[f].restore.ObserveResumed?)
      && (reply.Status? && states[j].callers[f].restore.ObserveResumed? ==>
            var gen := states[j].callers[f].restore.gen;
            next == Commits(RestoreStep(
              if !reply.answer.AoStatus? || reply.answer.session != tuple.session || reply.answer.gen != gen then UnknownRestore(op)
              else ConfirmRestore(op, tuple.session, tuple.expected, gen,
                     match reply.answer.activity
                     case ActivityIdle => SessionIdle case ActivityWaitingInput => SessionIdle
                     case ActivityExited => SessionTerminated
                     case _ => SessionActive, at))))
      && (reply.Principal? ==> next == if reply.verified.Some? then Commits(RestoreStep(ReserveRestore(op, tuple))) else Finished)
      && (states[j].callers[f].restore.ReserveResume? ==> reply.Stored? && next == if reply.commit == Done then Calls(Protocol.Resume(op)) else Finished)
      && (next.Calls? ==> states[j].callers[f].restore.ReserveResume?)
      && (states[j].callers[f].restore.RereadRestore? ==> reply.Read?)
      && (states[j].callers[f].restore.RereadRestore? && reply.Read? ==>
            next == if reply.ok && op in states[j].db.restores && states[j].db.restores[op].resolution == RestoreInFlight
                       && !(states[j].db.restores[op].stage == RestoreConfirmed && states[j].db.restores[op].observed == Some(states[j].callers[f].restore.gen)
                            && states[j].db.restores[op].http200At.Some?)
                    then Commits(RestoreStep(UnknownRestore(op))) else Finished)
  {
    hide HostRun;
    CallerWaits(states, actions, j, i, f);
  }

  /** Provision: only a created, living session is confirmed. */
  lemma ProvisionAnswers(states: seq<Host>, actions: seq<Action>, j: nat, i: nat, f: Id, at: Time)
    requires LastTurn(states, actions, j, i, f) && states[j].callers[f].Provisioning?
    ensures var op, pair, reply, next := states[j].callers[f].op, states[j].callers[f].pair, actions[j].reply, TurnOf(states[i].callers[f], at);
      && (reply.Back? ==> next == Commits(PairStep(
            if reply.result.Created? && !reply.result.terminated
            then ConfirmProvision(op, pair, Session(reply.result.session, reply.result.gen, SessionIdle, false)) else FailProvision(op))))
      && (states[j].callers[f].provision.ReservePair? ==> reply.Stored? && next == if reply.commit == Done then Calls(Protocol.Create(op)) else Finished)
      && (next.Calls? ==> states[j].callers[f].provision.ReservePair?)
  {
    hide HostRun;
    CallerWaits(states, actions, j, i, f);
  }
}
