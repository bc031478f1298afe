/** containAmbiguousSend of internal/dispatch/coordinator.go: after a send whose outcome or
    whose confirmation is in doubt, re-read the durable tuple and its audit events and contain
    the intent unless it is already confirmed or contained. */
module Containment {
  import opened Domain
  import opened Tables
  import opened DispatchTransactions
  import opened Invariants
  import opened History
  import opened Steps
  import opened ScanSteps
  import DispatchStore
  import RowEffects
  import StepProofs
  import StopTheorems

  const PAGE := 500

  // --- what the log says about an operation ---------------------------------------------

  /** The audit events of one operation that the re-read looks for. */
  datatype Found = Found(requested: bool, confirmed: bool, quarantined: bool, failed: bool, escalated: bool)

  predicate Matches(e: Event, op: Id, b: Binding) {
    match e
    case SendRequestedEvent(d, pair, task, attempt, session, gen) =>
      d == op && pair == b.pair && task == b.task && attempt == b.attempt && session == b.session && gen == b.gen
    case DeliveryQuarantineEvent(d, pair, task, attempt, session, gen) =>
      d == op && pair == b.pair && task == b.task && attempt == b.attempt && session == b.session && gen == b.gen
    case SendConfirmedEvent(d, pair, task, attempt) => d == op && pair == b.pair && task == b.task && attempt == b.attempt
    case TaskTransitionEvent(pair, task, attempt, _, _, cause) => cause == Some(op) && pair == b.pair && task == b.task && attempt == b.attempt
    case _ => false
  }

  function Seen(f: Found, e: Event): Found {
    f.(requested := f.requested || e.SendRequestedEvent?,
       confirmed := f.confirmed || e.SendConfirmedEvent?,
       quarantined := f.quarantined || e.DeliveryQuarantineEvent?,
       failed := f.failed || (e.TaskTransitionEvent? && e.from.Dispatched? && e.to.Failed?),
       escalated := f.escalated || (e.TaskTransitionEvent? && e.from.Failed? && e.to.HumanRequired?))
  }

  /** The events of the log, read in order. */
  function FoundIn(log: seq<Event>, op: Id, b: Binding): Found {
    if log == [] then Found(false, false, false, false, false)
    else
      var f := FoundIn(log[..|log| - 1], op, b);
      var e := log[|log| - 1];
      if Matches(e, op, b) then Seen(f, e) else f
  }

  lemma {:induction false} FoundEvent(log: seq<Event>, op: Id, b: Binding, e: Event)
    requires e in log && Matches(e, op, b)
    ensures var f := FoundIn(log, op, b);
      && (e.SendRequestedEvent? ==> f.requested) && (e.SendConfirmedEvent? ==> f.confirmed) && (e.DeliveryQuarantineEvent? ==> f.quarantined)
      && (e.TaskTransitionEvent? && e.from.Dispatched? && e.to.Failed? ==> f.failed)
      && (e.TaskTransitionEvent? && e.from.Failed? && e.to.HumanRequired? ==> f.escalated)
  {
    if log[|log| - 1] != e {
      FoundEvent(log[..|log| - 1], op, b, e);
    }
  }

  /** The paging loop of the re-read: every event, in order, once. */
  method ReadEvents(log: seq<Event>, op: Id, b: Binding) returns (f: Found)
    ensures f == FoundIn(log, op, b)
  {
    f := Found(false, false, false, false, false);
    var after := 0;
    while true
      invariant 0 <= after <= |log| && f == FoundIn(log[..after], op, b)
      decreases |log| - after
    {
      var end := if after + PAGE <= |log| then after + PAGE else |log|;
      var page := log[after..end];
      for i := 0 to |page|
        invariant f == FoundIn(log[..after + i], op, b)
      {
        assert log[..after + i + 1][..after + i] == log[..after + i];
        if Matches(page[i], op, b) { f := Seen(f, page[i]); }
      }
      after := end;
      if |page| < PAGE { break; }
    }
    assert log[..|log|] == log;
  }

  // --- every stage leaves its audit event ------------------------------------------------------

  function RequestedEvent(op: Id, b: Binding): Event { SendRequestedEvent(op, b.pair, b.task, b.attempt, b.session, b.gen) }

  predicate SendLogged(log: seq<Event>, op: Id, d: Dispatch) {
    var b := d.bound;
    && (!d.stage.DispatchBound? ==> RequestedEvent(op, b) in log)
    && (d.stage.SendConfirmed? ==> SendConfirmedEvent(op, b.pair, b.task, b.attempt) in log)
    && (d.unknown ==>
          && DeliveryQuarantineEvent(op, b.pair, b.task, b.attempt, b.session, b.gen) in log
          && TaskTransitionEvent(b.pair, b.task, b.attempt, Dispatched, Failed, Some(op)) in log
          && TaskTransitionEvent(b.pair, b.task, b.attempt, Failed, HumanRequired, Some(op)) in log)
  }

  predicate SendsLogged(db: DB) { forall d | d in db.dispatches :: SendLogged(db.log, d, db.dispatches[d]) }

  lemma LoggedStays(log: seq<Event>, more: seq<Event>, op: Id, d: Dispatch)
    requires SendLogged(log, op, d) && log <= more
    ensures SendLogged(more, op, d)
  {}

  /** The events a transaction appends are those of the rows it writes. */
  lemma SendsLoggedStays(db: DB, s: Step)
    requires SendsLogged(db) && Allowed(db, s)
    ensures SendsLogged(Effect(db, s))
  {
    hide Allowed, Effect, RowEffects.LineageRows, RowEffects.PairRows, LineagesKept;
    var e := Effect(db, s);
    RowEffects.StepRows(db, s);
    StepHistory(db, s);
    forall d | d in e.dispatches ensures SendLogged(e.log, d, e.dispatches[d]) {
      assert RowEffects.Row(e.dispatches, d) == RowEffects.DispatchAfter(db, s, d);
      if d in db.dispatches {
        assert SendLogged(db.log, d, db.dispatches[d]);
        LoggedStays(db.log, e.log, d, db.dispatches[d]);
        if e.dispatches[d] != db.dispatches[d] {
          RowEffects.StepFinds(db, s);
          WrittenLogged(db, s.dispatch, e, d);
        }
      }
    }
  }

  lemma WrittenLogged(db: DB, s: DispatchOp, e: DB, d: Id)
    requires d in db.dispatches && d in e.dispatches && e.dispatches[d] != db.dispatches[d]
    requires SendLogged(e.log, d, db.dispatches[d])
    requires db.log <= e.log && e.log[|db.log|..] == RowEffects.DispatchWritten(db, s)
    requires Some(e.dispatches[d]) == RowEffects.DispatchAfter(db, DispatchStep(s), d) && !s.Prepare?
    requires s.ConfirmSend? ==> !db.dispatches[d].stage.DispatchBound?
    ensures SendLogged(e.log, d, e.dispatches[d])
  {
    var written := RowEffects.DispatchWritten(db, s);
    assert e.log == db.log + written;
    assert s.op == d;
    assert written[0] in e.log;
    if s.UnknownDelivery? { assert written[1] in e.log && written[2] in e.log; }
  }

  lemma {:induction false} SendsLoggedAlways(states: seq<DB>, steps: seq<Step>, i: nat)
    requires Run(states, steps) && i <= |steps|
    ensures SendsLogged(states[i])
  {
    hide Allowed, Effect, SendsLogged;
    if i > 0 {
      assert StepAt(states, steps, i - 1);
      SendsLoggedAlways(states, steps, i - 1);
      SendsLoggedStays(states[i - 1], steps[i - 1]);
    } else {
      NothingLogged();
    }
  }

  lemma NothingLogged()
    ensures SendsLogged(EMPTY_DB)
  {}

  // --- containment --------------------------------------------------------------------------------

  datatype Verdict = Delivered | AlreadyContained | Contained | InDoubt

  /** The re-read proves that RecordUnknownDelivery committed. */
  predicate ContainedTuple(d: Dispatch, f: Found) { d.unknown && f.quarantined && f.failed && f.escalated }

  /** Never a resend: either the send is confirmed, or its intent ends up contained. InDoubt,
      the coordinator's "intent requires recovery", is left only for a caller that names the
      wrong attempt or a task that has moved past DISPATCHED without the operation. */
  method ContainAmbiguousSend(s: Store, op: Id, attempt: Id, at: Time) returns (v: Verdict)
    requires Inv(s.db) && SendsLogged(s.db)
    modifies s
    ensures Inv(s.db) && SendsLogged(s.db)
    ensures !(v.Contained? || v.InDoubt?) ==> s.db == old(s.db)
    ensures v.Delivered? <==> Names(old(s.db), op, attempt) && old(s.db).dispatches[op].stage.SendConfirmed?
    ensures Names(old(s.db), op, attempt) ==> !SendLeft(s.db, op)
    ensures v.Contained? <==> Names(old(s.db), op, attempt) && SendLeft(old(s.db), op)
    ensures v.Contained? ==> s.db == UnknownDeliveryCommit(old(s.db), op, at)
  {
    hide Inv, SendsLogged;
    ghost var before := s.db;
    if op !in s.db.dispatches || attempt !in s.db.attempts { return InDoubt; }
    var d := s.db.dispatches[op];
    if d.bound.task !in s.db.tasks { NamesTask(before, op); return InDoubt; }
    var found := ReadEvents(s.db.log, op, d.bound);
    SendLeftIsOpen(before, op);
    if d.bound.attempt != attempt || s.db.attempts[attempt].lineage.task != d.bound.task || s.db.tasks[d.bound.task].pair != d.bound.pair
       || s.db.tasks[d.bound.task].current != s.db.attempts[attempt].lineage.number {
      return InDoubt;
    }
    EventsFound(before, op);
    if d.stage.SendConfirmed? && found.confirmed { return Delivered; }
    if ContainedTuple(d, found) { return AlreadyContained; }
    if !d.stage.SendRequested? || d.unknown || s.db.attempts[attempt].ended.Some? || !s.db.tasks[d.bound.task].state.Dispatched?
       || !found.requested || s.db.attempts[attempt].lineage.session != d.bound.session || s.db.attempts[attempt].lineage.gen != d.bound.gen {
      return InDoubt;
    }
    var err := DispatchStore.RecordUnknownDelivery(s, op, at);
    StopTheorems.UnknownDeliveryEnabled(before, op);
    ContainedKeeps(before, op, at);
    d := s.db.dispatches[op];
    found := ReadEvents(s.db.log, op, d.bound);
    EventsFound(s.db, op);
    if ContainedTuple(d, found) && s.db.tasks[d.bound.task].state.HumanRequired? && s.db.attempts[attempt].ended.Some? { return Contained; }
    return InDoubt;
  }

  /** The tuple check of the re-read. */
  predicate Names(db: DB, op: Id, attempt: Id) {
    op in db.dispatches && db.dispatches[op].bound.attempt == attempt && IsCurrent(db.tasks, db.attempts, attempt)
  }

  lemma NamesTask(db: DB, op: Id)
    requires Inv(db) && op in db.dispatches
    ensures db.dispatches[op].bound.task in db.tasks
  {
    assert DispatchRefs(db.tasks, db.attempts, db.dispatches);
  }

  lemma EventsFound(db: DB, op: Id)
    requires SendsLogged(db) && op in db.dispatches
    ensures var d := db.dispatches[op]; var f := FoundIn(db.log, op, d.bound);
      && (!d.stage.DispatchBound? ==> f.requested) && (d.stage.SendConfirmed? ==> f.confirmed)
      && (d.unknown ==> f.quarantined && f.failed && f.escalated)
  {
    var d := db.dispatches[op];
    var b := d.bound;
    assert SendLogged(db.log, op, d);
    if !d.stage.DispatchBound? { FoundEvent(db.log, op, b, RequestedEvent(op, b)); }
    if d.stage.SendConfirmed? { FoundEvent(db.log, op, b, SendConfirmedEvent(op, b.pair, b.task, b.attempt)); }
    if d.unknown {
      FoundEvent(db.log, op, b, DeliveryQuarantineEvent(op, b.pair, b.task, b.attempt, b.session, b.gen));
      FoundEvent(db.log, op, b, TaskTransitionEvent(b.pair, b.task, b.attempt, Dispatched, Failed, Some(op)));
      FoundEvent(db.log, op, b, TaskTransitionEvent(b.pair, b.task, b.attempt, Failed, HumanRequired, Some(op)));
    }
  }

  lemma SendLeftIsOpen(db: DB, op: Id)
    requires Inv(db) && op in db.dispatches
    ensures var b := db.dispatches[op].bound;
      && b.attempt in db.attempts && db.attempts[b.attempt].lineage.task == b.task
      && db.attempts[b.attempt].lineage.session == b.session && db.attempts[b.attempt].lineage.gen == b.gen
      && b.task in db.tasks && db.tasks[b.task].pair == b.pair
      && (SendLeft(db, op) ==> db.attempts[b.attempt].ended.None?)
      && (db.dispatches[op].unknown ==> db.dispatches[op].stage.SendRequested?)
  {
    assert DispatchRefs(db.tasks, db.attempts, db.dispatches) && CurrentIsOpen(db.tasks, db.attempts);
  }

  lemma ContainedKeeps(db: DB, op: Id, at: Time)
    requires Inv(db) && SendsLogged(db) && UnknownDeliveryAdmits(db, op)
    ensures var e := UnknownDeliveryCommit(db, op, at);
      Inv(e) && SendsLogged(e) && !SendLeft(e, op) && op in e.dispatches && e.dispatches[op].unknown
  {
    hide Inv, SendsLogged;
    var s := DispatchStep(UnknownDelivery(op, at));
    StepProofs.StepKeeps(db, s);
    SendsLoggedStays(db, s);
  }
}
