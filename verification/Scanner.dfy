/** The startup recovery sweep (internal/recovery/scanner.go): Run classifies whatever a crash
    left behind, with one status GET per candidate and no kill, send, create or resume. */
module Scanner {
  import opened Domain
  import opened Tables
  import opened DispatchTransactions
  import opened ProvisioningTransactions
  import opened RecoveryTransactions
  import opened StopTransactions
  import opened RestoreTransactions
  import opened Invariants
  import opened Steps
  import opened ScanSteps
  import opened SweepRest
  import opened SweepCompletion
  import StopTargets
  import DispatchStore
  import LifecycleStore
  import RestoreStore
  import StopStore

  class Runner {
    const store: Store
    /** Any readings of the clock, and at each look at the context whether it has been cancelled. */
    const clock: nat -> Time
    const cancelled: nat -> bool
    /** Any answers at all: to the k-th status GET, by session, and to the handoff check that
        follows it, by operation (None is an error). */
    const ao: nat -> Id -> Answer
    const handoff: nat -> Id -> Option<bool>
    var ticks: nat
    var polls: nat
    var gets: nat
    /** The report. */
    var classified: nat
    var pendingAO: bool
    var complete: bool

    constructor (store: Store, clock: nat -> Time, cancelled: nat -> bool, ao: nat -> Id -> Answer, handoff: nat -> Id -> Option<bool>)
      ensures this.store == store
    {
      this.store, this.clock, this.cancelled, this.ao, this.handoff := store, clock, cancelled, ao, handoff;
      ticks, polls, gets := 0, 0, 0;
      classified, pendingAO, complete := 0, false, false;
    }

    /** The same answers and the same time whenever they are asked for. */
    ghost predicate Steady() { forall k: nat :: ao(k) == ao(0) && handoff(k) == handoff(0) && clock(k) == clock(0) }

    ghost predicate NeverCancelled() { forall k: nat :: !cancelled(k) }

    /** Whenever it is asked about this execution or stop, AO gives an answer that passes. */
    ghost predicate Surely(x: Execution) { forall k: nat, j: nat :: ExecutionPasses(x, ao(k)(x.session), handoff(j)(x.op)) }

    ghost predicate SurelyStop(db: DB, o: Id)
      requires o in db.stops
    {
      forall k: nat, i: nat :: StopPasses(db, o, ao(k)(db.stops[o].target.session), clock(i))
    }

    method Now() returns (now: Time)
      modifies this`ticks
      ensures now == clock(old(ticks))
    {
      now := clock(ticks);
      ticks := ticks + 1;
    }

    method Interrupted() returns (yes: bool)
      modifies this`polls
      ensures NeverCancelled() ==> !yes
    {
      yes := cancelled(polls);
      polls := polls + 1;
    }

    method GetWorkerStatus(session: Id) returns (answer: Answer)
      modifies this`gets
      ensures Steady() ==> answer == ao(0)(session)
      ensures answer == ao(old(gets))(session)
    {
      answer := ao(gets)(session);
      gets := gets + 1;
    }

    // --- snapshot queries, in some order -------------------------------------------------

    method Listed(ids: set<Id>) returns (q: seq<Id>)
      ensures forall x :: x in q <==> x in ids
      ensures forall i, j | 0 <= i < j < |q| :: q[i] != q[j]
      ensures |q| == |ids|
    {
      q := [];
      var rest := ids;
      while rest != {}
        invariant rest <= ids && |q| + |rest| == |ids| && forall x :: x in q <==> x in ids - rest
        invariant forall i | 0 <= i < |q| :: q[i] !in rest
        invariant forall i, j | 0 <= i < j < |q| :: q[i] != q[j]
        decreases rest
      {
        var x :| x in rest;
        forall i | 0 <= i < |q| ensures q[i] != x { assert q[i] !in rest; }
        q := q + [x];
        rest := rest - {x};
      }
    }

    method ListedRestores(snap: DB) returns (q: seq<Id>)
      ensures |q| == |InFlightRestores(snap)|
      ensures forall r :: RestoreLeft(snap, r) ==> r in q
      ensures forall r :: r in q <==> r in snap.restores && snap.restores[r].resolution.RestoreInFlight?
      ensures forall i, j | 0 <= i < j < |q| :: q[i] != q[j]
    {
      q := Listed(InFlightRestores(snap));
    }

    method ListedProvisions(snap: DB) returns (q: seq<Id>)
      ensures |q| == |UnansweredProvisions(snap)|
      ensures forall p :: ProvisionLeft(snap, p) <==> p in q
      ensures forall i, j | 0 <= i < j < |q| :: q[i] != q[j]
    {
      q := Listed(UnansweredProvisions(snap));
    }

    method ListedStops(snap: DB) returns (q: seq<Id>)
      ensures |q| == |InFlightStops(snap)|
      ensures forall o :: StopLeft(snap, o) <==> o in q
      ensures forall i, j | 0 <= i < j < |q| :: q[i] != q[j]
    {
      q := Listed(InFlightStops(snap));
    }

    method ListedBlocked(snap: DB) returns (q: seq<Id>)
      ensures |q| == |BlockedAttempts(snap)|
      ensures forall a :: BlockedLeft(snap, a) <==> a in q
      ensures forall a | a in q :: a in snap.attempts
      ensures forall i, j | 0 <= i < j < |q| :: q[i] != q[j]
      ensures (forall a :: !BlockedLeft(snap, a)) ==> q == []
    {
      q := Listed(BlockedAttempts(snap));
      assert |q| > 0 ==> q[0] in q;
    }

    // --- interrupted restores and provisionings ------------------------------------------------

    lemma SameNow(db: DB)
      ensures ExecutionsSame(db, db)
    {}

    method ClassifyRestores(q: seq<Id>) returns (ok: bool)
      requires ScanInv(store.db) && forall r :: RestoreLeft(store.db, r) ==> r in q
      requires forall i, j | 0 <= i < j < |q| :: q[i] != q[j]
      requires forall r | r in q :: r in store.db.restores && store.db.restores[r].resolution.RestoreInFlight?
      modifies this`polls, this`classified, store
      ensures ScanInv(store.db) && Shrinks(old(store.db), store.db) && SameStops(old(store.db), store.db)
      ensures ok ==> store.db.provisions == old(store.db).provisions && forall r :: !RestoreLeft(store.db, r)
      ensures NeverCancelled() ==> ok
      ensures ok ==> classified == old(classified) + |q|
      ensures ExecutionsSame(old(store.db), store.db)
      ensures (forall r :: !RestoreLeft(old(store.db), r)) ==> store.db == old(store.db)
    {
      hide ScanInv, Shrinks, ExecutionsSame, InterruptedCommit, FailProvisionCommit;
      SameNow(store.db);
      ShrinksSelf(store.db);
      for i := 0 to |q|
        invariant ScanInv(store.db) && Shrinks(old(store.db), store.db) && SameStops(old(store.db), store.db)
        invariant ExecutionsSame(old(store.db), store.db)
        invariant (forall r :: !RestoreLeft(old(store.db), r)) ==> store.db == old(store.db)
        invariant store.db.provisions == old(store.db).provisions
        invariant classified == old(classified) + i
        invariant forall r :: RestoreLeft(store.db, r) ==> r in q[i..]
        invariant forall j | i <= j < |q| :: q[j] in store.db.restores && store.db.restores[q[j]].resolution.RestoreInFlight?
      {
        var stopped := Interrupted();
        if stopped { return false; }
        ghost var before := store.db;
        var r := q[i];
        RestoreClassifies(before, r);
        var err := RestoreStore.ClassifyInterruptedRestore(store, r);
        if InterruptedAdmits(before, r) { RestoreClassified(old(store.db), before, r); }
        if err.StateConflict? { err := RestoreWinner(r); }
        if !err.Nil? { return false; }
        classified := classified + 1;
      }
      return true;
    }

    /** Another writer has classified the restore meanwhile. */
    method RestoreWinner(op: Id) returns (err: Error)
      ensures err.Nil? <==> op in store.db.restores && !store.db.restores[op].resolution.RestoreInFlight?
    {
      if op !in store.db.restores || store.db.restores[op].resolution.RestoreInFlight? { return StateConflict; }
      return Nil;
    }

    method ProvisionWinner(op: Id) returns (err: Error)
      ensures err.Nil? <==> op in store.db.provisions && !store.db.provisions[op].stage.ProvisionRequested?
    {
      if op !in store.db.provisions || store.db.provisions[op].stage.ProvisionRequested? { return StateConflict; }
      return Nil;
    }

    method FailProvisionings(q: seq<Id>) returns (ok: bool)
      requires ScanInv(store.db) && forall p :: ProvisionLeft(store.db, p) <==> p in q
      requires forall i, j | 0 <= i < j < |q| :: q[i] != q[j]
      modifies this`polls, this`classified, store
      ensures ScanInv(store.db) && Shrinks(old(store.db), store.db) && SameStops(old(store.db), store.db)
      ensures ok ==> forall p :: !ProvisionLeft(store.db, p)
      ensures NeverCancelled() ==> ok
      ensures ok ==> classified == old(classified) + |q|
      ensures ExecutionsSame(old(store.db), store.db)
      ensures (forall p :: !ProvisionLeft(old(store.db), p)) ==> store.db == old(store.db)
    {
      hide ScanInv, Shrinks, ExecutionsSame, InterruptedCommit, FailProvisionCommit;
      SameNow(store.db);
      ShrinksSelf(store.db);
      for i := 0 to |q|
        invariant ScanInv(store.db) && Shrinks(old(store.db), store.db) && SameStops(old(store.db), store.db)
        invariant ExecutionsSame(old(store.db), store.db)
        invariant (forall p :: !ProvisionLeft(old(store.db), p)) ==> store.db == old(store.db)
        invariant forall p :: ProvisionLeft(store.db, p) <==> p in q[i..]
        invariant classified == old(classified) + i
      {
        var stopped := Interrupted();
        if stopped { return false; }
        ghost var before := store.db;
        var p := q[i];
        assert ProvisionLeft(before, p) by { assert p in q[i..]; }
        ProvisionFailedNow(old(store.db), before, p);
        var err := LifecycleStore.FailProvisioningAtStartup(store, p);
        if err.StateConflict? { err := ProvisionWinner(p); }
        if !err.Nil? { return false; }
        classified := classified + 1;
      }
      return true;
    }

    // --- executions ---------------------------------------------------------------------------------

    /** Every statement the sweep makes about an execution, whatever AO answered. */
    method ClassifyExecution(x: Execution) returns (err: Error)
      requires ScanInv(store.db) && Live(store.db, x) && (x.state.Dispatched? || (x.state.Running? && x.stage.SendConfirmed?))
      requires x.attempt !in StopOwnedAttempts(store.db)
      modifies this`gets, this`ticks, this`pendingAO, store
      ensures ScanInv(store.db) && Shrinks(old(store.db), store.db) && SameStops(old(store.db), store.db)
      ensures x.stage.SendRequested? ==> !SendLeft(store.db, x.op)
      ensures old(pendingAO) ==> pendingAO
      ensures OthersSame(old(store.db), store.db, x.op)
      ensures if err.Nil? then Steady() ==> Reacted(old(store.db), store.db, x, ao(0)(x.session), handoff(0)(x.op)) else store.db == old(store.db)
      ensures Steady() && Quiet(x, ao(0)(x.session), handoff(0)(x.op)) ==> SameTables(old(store.db), store.db)
      ensures Surely(x) ==> err.Nil?
      ensures Steady() && err.Nil? ==> ExecutionPasses(x, ao(0)(x.session), handoff(0)(x.op))
      ensures Steady() && err.Nil? ==> Judged(store.db, x, VerdictOf(x, ao(0)(x.session), handoff(0)(x.op)))
    {
      hide ScanInv, Shrinks, OthersSame, Reacted, Live, PreSendQuiet, PostSendQuiet, StopOwnedAttempts, HandoffAsked, Judged;
      ghost var before := store.db;
      if x.stage.SendRequested? {
        SentIntentLeft(before, x);
        SendLeftContained(before, x.op);
        ShrinksSelf(before);
        Unreacted(before, x);
        var now := Now();
        err := DispatchStore.RecordUnknownDelivery(store, x.op, now);
        if err.Nil? { Step(before, x, DispatchStep(UnknownDelivery(x.op, now)), ao(0)(x.session), handoff(0)(x.op)); }
        return;
      }
      var answer := GetWorkerStatus(x.session);
      if x.stage.DispatchBound? {
        err := ClassifyPreSend(x, answer, handoff(0)(x.op));
      } else {
        err := ClassifyPostSend(x, answer);
      }
    }

    lemma SentIntentLeft(db: DB, x: Execution)
      requires ScanInv(db) && Live(db, x) && x.stage.SendRequested? && x.state.Dispatched?
      ensures SendLeft(db, x.op)
    {
      hide ScanInv;
      LiveFacts(db, x);
    }

    /** What one statement does to its execution and to the rest of the database. */
    lemma Step(before: DB, x: Execution, s: Steps.Step, answer: Answer, available: Option<bool>)
      requires ScanInv(before) && Live(before, x) && Allowed(before, s) && About(s, x) && ScanMove(s)
      ensures ScanInv(Effect(before, s)) && Shrinks(before, Effect(before, s))
      ensures OthersSame(before, Effect(before, s), x.op) && SameStops(before, Effect(before, s))
      ensures (Next(s, x).Some? ==> Next(s, x).value.session == x.session && Quiet(Next(s, x).value, answer, available))
              ==> Reacted(before, Effect(before, s), x, answer, available)
      ensures Judged(Effect(before, s), x, Decides(s, x))
    {
      hide ScanInv, Shrinks, OthersSame, Live, Allowed, Effect, Quiet, About, Next, Judged, Decides;
      ScanStep(before, s);
      Reacts(before, s, x);
      Judges(before, s, x);
    }

    /** No statement, nothing changed. */
    lemma Unreacted(db: DB, x: Execution)
      requires Live(db, x)
      ensures OthersSame(db, db, x.op)
      ensures forall answer, available :: Quiet(x, answer, available) ==> Reacted(db, db, x, answer, available)
      ensures Judged(db, x, Open(x.state, x.disposition))
    {}

    method ClassifyPreSend(x: Execution, answer: Answer, ghost available: Option<bool>) returns (err: Error)
      requires ScanInv(store.db) && Live(store.db, x) && x.stage.DispatchBound? && x.state.Dispatched?
      modifies this`ticks, this`pendingAO, store
      ensures ScanInv(store.db) && Shrinks(old(store.db), store.db) && SameStops(old(store.db), store.db)
      ensures old(pendingAO) ==> pendingAO
      ensures OthersSame(old(store.db), store.db, x.op)
      ensures if err.Nil? then Reacted(old(store.db), store.db, x, answer, available) else store.db == old(store.db)
      ensures err.Nil? ==> Judged(store.db, x, VerdictOf(x, answer, available))
      ensures Quiet(x, answer, available) ==> SameTables(old(store.db), store.db)
      ensures err.Nil? <==> !answer.AoEmpty?
    {
      hide ScanInv, Shrinks, OthersSame, Reacted, Live, Judged;
      ShrinksSelf(store.db);
      Unreacted(store.db, x);
      match answer
      case AoProtocolError =>
        if x.disposition == Some(PreSendProtocolUnverified) { pendingAO := true; return Nil; }
        err := Hold(x, PreSendProtocolUnverified, answer, available);
      case AoNotFound => err := Close(x, SessionAbsent, answer, available);
      case AoUnavailable =>
        if x.disposition.Some? && x.disposition != Some(RecoveryPending) { pendingAO := true; return Nil; }
        err := Hold(x, RecoveryPending, answer, available);
      case AoEmpty => err := Invalid;
      case AoStatus(_, _, _, _) => err := ClassifyStatus(x, answer, available);
    }

    /** classifyPreSend: AO described a session. */
    method ClassifyStatus(x: Execution, answer: Answer, ghost available: Option<bool>) returns (err: Error)
      requires ScanInv(store.db) && Live(store.db, x) && x.stage.DispatchBound? && x.state.Dispatched? && answer.AoStatus?
      modifies this`ticks, this`pendingAO, store
      ensures ScanInv(store.db) && Shrinks(old(store.db), store.db) && SameStops(old(store.db), store.db)
      ensures old(pendingAO) ==> pendingAO
      ensures OthersSame(old(store.db), store.db, x.op) && Reacted(old(store.db), store.db, x, answer, available)
      ensures Quiet(x, answer, available) ==> SameTables(old(store.db), store.db)
      ensures err.Nil? && Judged(store.db, x, VerdictOf(x, answer, available))
    {
      hide ScanInv, Shrinks, OthersSame, Reacted, Live, RejectAdmits, ResolveHoldAdmits, Judged;
      ShrinksSelf(store.db);
      Unreacted(store.db, x);
      if answer.session != x.session { err := Close(x, PreSendIdentityMismatch, answer, available); return; }
      if answer.gen != x.gen { err := Close(x, StaleExecutionGeneration, answer, available); return; }
      if answer.terminated { err := Close(x, WorkerTerminationUnknown, answer, available); return; }
      ghost var before := store.db;
      var activity := answer.activity;
      if !activity.ActivityIdle? && !activity.ActivityWaitingInput? {
        RejectCommits(before, x, activity);
        err := DispatchStore.RecordPreSendAdmissibilityRejected(store, x.op, activity);
        Step(before, x, DispatchStep(Reject(x.op, activity)), answer, available);
        return;
      }
      if x.disposition == Some(RecoveryPending) {
        ResolveCommits(before, x, activity);
        err := DispatchStore.ResolvePreSendHold(store, x.op, x.attempt, RecoveryPending, x.session, x.gen, activity, None);
        Step(before, x, DispatchStep(ResolveHold(x.op, x.attempt, RecoveryPending, x.session, x.gen, activity, None)), answer, available);
        return;
      }
      err := Nil;
    }

    method Hold(x: Execution, hold: Disposition, answer: Answer, ghost available: Option<bool>) returns (err: Error)
      requires ScanInv(store.db) && Live(store.db, x) && x.stage.DispatchBound? && x.state.Dispatched?
      requires hold.PreSendProtocolUnverified? || (hold.RecoveryPending? && (x.disposition.None? || x.disposition == Some(RecoveryPending)))
      requires Quiet(x.(disposition := Some(hold)), answer, available)
      modifies this`ticks, this`pendingAO, store
      ensures ScanInv(store.db) && Shrinks(old(store.db), store.db) && SameStops(old(store.db), store.db)
      ensures old(pendingAO) ==> pendingAO
      ensures OthersSame(old(store.db), store.db, x.op)
      ensures if err.Nil? then Reacted(old(store.db), store.db, x, answer, available) else store.db == old(store.db)
      ensures x.disposition == Some(hold) ==> store.db == old(store.db)
      ensures err.Nil? && Judged(store.db, x, Open(x.state, Some(hold)))
    {
      hide ScanInv, Shrinks, OthersSame, Reacted, Quiet, Judged;
      ghost var before := store.db;
      HoldCommits(before, x, hold);
      ShrinksSelf(before);
      Unreacted(before, x);
      err := DispatchStore.RecordPreSendHold(store, x.op, hold);
      if HoldAdmits(before, x.op, hold) { Step(before, x, DispatchStep(DispatchOp.Hold(x.op, hold)), answer, available); }
      if err.Nil? { pendingAO := true; }
    }

    method Close(x: Execution, why: Disposition, answer: Answer, ghost available: Option<bool>) returns (err: Error)
      requires ScanInv(store.db) && Live(store.db, x) && x.state.Dispatched?
      modifies this`ticks, this`pendingAO, store
      ensures ScanInv(store.db) && Shrinks(old(store.db), store.db) && SameStops(old(store.db), store.db)
      ensures old(pendingAO) ==> pendingAO
      ensures OthersSame(old(store.db), store.db, x.op)
      ensures err.Nil? && Reacted(old(store.db), store.db, x, answer, available) && Judged(store.db, x, Ended(why))
    {
      hide ScanInv, Shrinks, OthersSame, Reacted, Quiet, Live, TerminalAdmits, Judged;
      ghost var before := store.db;
      CloseCommits(before, x, why);
      ShrinksSelf(before);
      Unreacted(before, x);
      var now := Now();
      err := DispatchStore.AtomicTerminalTransition(store, x.task, Dispatched, x.attempt, why, now);
      if err.Nil? { Step(before, x, ExecutionStep(Terminal(x.task, Dispatched, x.attempt, why, now)), answer, available); }
    }

    method ClassifyPostSend(x: Execution, answer: Answer) returns (err: Error)
      requires ScanInv(store.db) && Live(store.db, x) && x.stage.SendConfirmed? && (x.state.Dispatched? || x.state.Running?)
      requires x.attempt !in StopOwnedAttempts(store.db)
      modifies this`ticks, this`pendingAO, store
      ensures ScanInv(store.db) && Shrinks(old(store.db), store.db) && SameStops(old(store.db), store.db)
      ensures old(pendingAO) ==> pendingAO
      ensures OthersSame(old(store.db), store.db, x.op)
      ensures if err.Nil? then Reacted(old(store.db), store.db, x, answer, handoff(gets)(x.op)) else store.db == old(store.db)
      ensures err.Nil? ==> Judged(store.db, x, VerdictOf(x, answer, handoff(gets)(x.op)))
      ensures Quiet(x, answer, handoff(gets)(x.op)) ==> SameTables(old(store.db), store.db)
      ensures err.Nil? <==> ExecutionPasses(x, answer, handoff(gets)(x.op))
    {
      hide ScanInv, Shrinks, OthersSame, Reacted, ObserveQuiet, Live, StopOwnedAttempts, StopOwned, Judged;
      ghost var before := store.db;
      ShrinksSelf(before);
      Unreacted(before, x);
      match answer
      case AoProtocolError => err := Invalid;
      case AoEmpty => err := Invalid;
      case AoUnavailable =>
        if x.disposition.Some? && x.disposition != Some(RecoveryPending) { pendingAO := true; return Nil; }
        OutageCommits(before, x);
        err := LifecycleStore.RecordPostSendOutage(store, x);
        if OutageAdmits(before, x) { Step(before, x, ExecutionStep(RecordOutage(x)), answer, handoff(gets)(x.op)); }
        if err.Nil? { pendingAO := true; }
      case AoNotFound => err := Observed(x, answer, Some(false), handoff(gets)(x.op));
      case AoStatus(session, gen, activity, terminated) =>
        var available := Some(false);
        if x.state.Dispatched? && session == x.session && gen == x.gen && !terminated && activity.ActivityIdle? {
          available := handoff(gets)(x.op);
          if available.None? { return Invalid; }
        }
        err := Observed(x, answer, available, handoff(gets)(x.op));
    }

    method Observed(x: Execution, answer: Answer, available: Option<bool>, ghost checked: Option<bool>) returns (err: Error)
      requires ScanInv(store.db) && Live(store.db, x) && x.stage.SendConfirmed? && (x.state.Dispatched? || x.state.Running?)
      requires x.attempt !in StopOwnedAttempts(store.db)
      requires answer.AoNotFound? || answer.AoStatus?
      requires HandoffAsked(x, answer) ==> available == checked
      modifies this`ticks, this`pendingAO, store
      ensures ScanInv(store.db) && Shrinks(old(store.db), store.db) && SameStops(old(store.db), store.db)
      ensures old(pendingAO) ==> pendingAO
      ensures OthersSame(old(store.db), store.db, x.op)
      ensures if err.Nil? then Reacted(old(store.db), store.db, x, answer, checked) else store.db == old(store.db)
      ensures err.Nil? ==> Judged(store.db, x, VerdictOf(x, answer, checked))
      ensures ObserveQuiet(x, SeenOf(x, answer, checked)) ==> SameTables(old(store.db), store.db)
      ensures err.Nil? <==> (answer.AoStatus? ==> answer.session == x.session)
    {
      hide ScanInv, Shrinks, OthersSame, Reacted, ObserveCommit, Live, StopOwnedAttempts, StopOwned, ExecutionUnchanged, AuditLineage, TerminalDisposition, ObserveQuiet, ObserveIgnored, Judged, VerdictOf, Decides;
      ghost var before := store.db;
      ShrinksSelf(before);
      Unreacted(before, x);
      var seen := SeenOf(x, answer, available);
      if seen.session == x.session { ObserveCommits(before, x, seen); }
      var now := Now();
      err := LifecycleStore.ObservePostSend(store, x, seen, now);
      ObservedIsQuiet(x, answer, checked, now);
      ObservedVerdict(x, answer, checked, now);
      if ObserveAdmits(before, x, seen) {
        Step(before, x, ExecutionStep(Observe(x, seen, now)), answer, checked);
        if ObserveQuiet(x, seen) { QuietObservation(before, x, seen, now); }
      }
    }

    /** executionWinner: another writer has moved the execution; one it left RECOVERY_PENDING is
        still waiting for AO. */
    method ExecutionWinner(x: Execution) returns (err: Error)
      modifies this`pendingAO
      ensures err.Nil? <==> ExecutionMoved(store.db, x)
      ensures old(pendingAO) ==> pendingAO
    {
      if !ExecutionMoved(store.db, x) { return StateConflict; }
      if store.db.attempts[x.attempt].disposition == Some(RecoveryPending) { pendingAO := true; }
      return Nil;
    }

    /** The rows of the phase before position i were given answers that pass. */
    ghost predicate Passed(xs: seq<Execution>, i: nat, owned: set<Id>, confirmed: bool) {
      forall j | 0 <= j < i && j < |xs| :: InPhase(xs[j], owned, confirmed) ==> ExecutionPasses(xs[j], ao(0)(xs[j].session), handoff(0)(xs[j].op))
    }

    ghost predicate SurelyAll(xs: seq<Execution>, owned: set<Id>, confirmed: bool) {
      forall j | 0 <= j < |xs| :: InPhase(xs[j], owned, confirmed) ==> Surely(xs[j])
    }

    /** The candidates of one send phase, skipping attempts owned by a live stop. */
    method ClassifyExecutions(xs: seq<Execution>, owned: set<Id>, confirmed: bool) returns (ok: bool)
      requires ScanInv(store.db) && AllLive(store.db, xs) && StopOwnedAttempts(store.db) <= owned
      requires !confirmed ==> forall d :: SendLeft(store.db, d) ==> d in SendOps(xs, owned)
      requires forall d :: Candidate(store.db, d, owned, confirmed) ==> d in Ops(xs)
      modifies this`gets, this`ticks, this`polls, this`classified, this`pendingAO, store
      ensures ScanInv(store.db) && Shrinks(old(store.db), store.db) && SameStops(old(store.db), store.db)
      ensures ok && !confirmed ==> forall d :: !SendLeft(store.db, d)
      ensures old(pendingAO) ==> pendingAO
      ensures Steady() && ok ==> QuietBut(store.db, owned, confirmed, ao(0), handoff(0), {})
      ensures Steady() && ok && QuietBut(old(store.db), owned, !confirmed, ao(0), handoff(0), {}) ==> QuietBut(store.db, owned, !confirmed, ao(0), handoff(0), {})
      ensures Steady() && QuietBut(old(store.db), owned, confirmed, ao(0), handoff(0), {}) ==> SameTables(old(store.db), store.db)
      // an answer that passes for every row, and only that, lets the phase through
      ensures NeverCancelled() && SurelyAll(xs, owned, confirmed) ==> ok
      ensures ok ==> classified == old(classified) + CountIn(xs, owned, confirmed)
      ensures Steady() && ok ==> Passed(xs, |xs|, owned, confirmed)
      ensures CandidatesSame(old(store.db), store.db, owned, {!confirmed})
      ensures BlockedKept(old(store.db), store.db)
      ensures Steady() && ok ==> AllJudged(store.db, xs, |xs|, owned, confirmed)
    {
      hide ScanInv, PhaseDone, Judged, VerdictOf, AllJudged, Shrinks, BlockedKept, QuietBut, CandidatesSame, OthersSame, Reacted, Live, AllLive, StopOwnedAttempts, ExecutionPasses, Surely, Quiet, Candidate, Ops, ExecutionMoved, Passed;
      ghost var start := store.db;
      NothingDone(start, xs, owned, confirmed);
      assert xs[0..] == xs;
      for i := 0 to |xs|
        invariant ScanInv(store.db) && (old(pendingAO) ==> pendingAO)
        invariant PhaseDone(start, store.db, xs, i, owned, confirmed)
        invariant classified + CountIn(xs[i..], owned, confirmed) == old(classified) + CountIn(xs, owned, confirmed)
      {
        var x := xs[i];
        ghost var before := store.db;
        assert xs[i..][0] == x && xs[i..][1..] == xs[i + 1..];
        DoneSoFar(start, before, xs, i, owned, confirmed);
        if x.attempt !in owned && x.stage.SendConfirmed? == confirmed {
          var stopped := Interrupted();
          if stopped { return false; }
          LiveNotMoved(before, x);
          var err := ClassifyExecution(x);
          if err.StateConflict? { err := ExecutionWinner(x); }
          if !err.Nil? { return false; }
          classified := classified + 1;
          RowClassified(start, before, store.db, xs, i, owned, confirmed);
        } else {
          RowSkipped(start, before, xs, i, owned, confirmed);
        }
      }
      assert xs[|xs|..] == [];
      AllDone(start, store.db, xs, owned, confirmed);
      return true;
    }

    /** The rows of the phase before position i show the verdict of their answer. */
    ghost predicate AllJudged(db: DB, xs: seq<Execution>, i: nat, owned: set<Id>, confirmed: bool) {
      forall j | 0 <= j < i && j < |xs| && InPhase(xs[j], owned, confirmed) ::
        Judged(db, xs[j], VerdictOf(xs[j], ao(0)(xs[j].session), handoff(0)(xs[j].op)))
    }

    /** What a phase has made of the rows before position i. */
    ghost predicate PhaseDone(start: DB, db: DB, xs: seq<Execution>, i: nat, owned: set<Id>, confirmed: bool) {
      && i <= |xs| && Shrinks(start, db) && SameStops(start, db) && BlockedKept(start, db)
      && StopOwnedAttempts(db) <= owned && AllLive(start, xs) && AllLive(db, xs[i..])
      && CandidatesSame(start, db, owned, {!confirmed}) && (!confirmed ==> forall d :: SendLeft(db, d) ==> d in SendOps(xs[i..], owned))
      && (Steady() ==>
            && QuietBut(db, owned, confirmed, ao(0), handoff(0), Ops(xs[i..])) && Passed(xs, i, owned, confirmed)
            && AllJudged(db, xs, i, owned, confirmed)
            && (QuietBut(start, owned, !confirmed, ao(0), handoff(0), {}) ==> QuietBut(db, owned, !confirmed, ao(0), handoff(0), {}))
            && (QuietBut(start, owned, confirmed, ao(0), handoff(0), {}) ==> SameTables(start, db)))
    }

    lemma NothingDone(start: DB, xs: seq<Execution>, owned: set<Id>, confirmed: bool)
      requires AllLive(start, xs) && StopOwnedAttempts(start) <= owned
      requires !confirmed ==> forall d :: SendLeft(start, d) ==> d in SendOps(xs, owned)
      requires forall d :: Candidate(start, d, owned, confirmed) ==> d in Ops(xs)
      ensures PhaseDone(start, start, xs, 0, owned, confirmed)
    {
      hide Shrinks, BlockedKept, CandidatesSame, AllLive, QuietBut, StopOwnedAttempts, SendOps, Ops, Candidate;
      assert xs[0..] == xs;
      ShrinksSelf(start);
      CandidatesNow(start, owned, {!confirmed});
      BlockedSelf(start);
      NothingElse(start, xs, owned, confirmed, ao(0), handoff(0));
    }

    lemma DoneSoFar(start: DB, db: DB, xs: seq<Execution>, i: nat, owned: set<Id>, confirmed: bool)
      requires PhaseDone(start, db, xs, i, owned, confirmed)
      ensures Shrinks(start, db) && SameStops(start, db) && BlockedKept(start, db) && StopOwnedAttempts(db) <= owned
      ensures CandidatesSame(start, db, owned, {!confirmed})
      ensures Steady() && QuietBut(start, owned, confirmed, ao(0), handoff(0), {}) ==> SameTables(start, db)
      ensures i < |xs| ==> Live(db, xs[i]) && (xs[i].state.Dispatched? || (xs[i].state.Running? && xs[i].stage.SendConfirmed?))
    {
      hide Shrinks, BlockedKept, CandidatesSame, QuietBut, StopOwnedAttempts, SendOps, Ops, Live;
      if i < |xs| { assert xs[i..][0] == xs[i]; }
    }

    lemma RowSkipped(start: DB, db: DB, xs: seq<Execution>, i: nat, owned: set<Id>, confirmed: bool)
      requires PhaseDone(start, db, xs, i, owned, confirmed) && i < |xs| && !InPhase(xs[i], owned, confirmed)
      ensures PhaseDone(start, db, xs, i + 1, owned, confirmed)
    {
      hide Shrinks, BlockedKept, CandidatesSame, QuietBut, StopOwnedAttempts, SendOps, Ops, AllLive, ExecutionPasses;
      assert xs[i..][0] == xs[i] && xs[i..][1..] == xs[i + 1..];
      RestSkipped(db, xs[i..], owned, confirmed);
      SendOpsStep(xs, i, owned);
    }

    /** Classifying one execution leaves the verdicts on the others. */
    lemma VerdictsStay(start: DB, db: DB, e: DB, xs: seq<Execution>, i: nat, owned: set<Id>, confirmed: bool)
      requires AllLive(start, xs) && i < |xs| && AllJudged(db, xs, i, owned, confirmed) && OthersSame(db, e, xs[i].op) && DecisionsKept(db, e)
      requires Judged(e, xs[i], VerdictOf(xs[i], ao(0)(xs[i].session), handoff(0)(xs[i].op)))
      ensures AllJudged(e, xs, i + 1, owned, confirmed)
    {
      hide DecisionsKept, OthersSame, VerdictOf, Judged;
      forall j | 0 <= j < i && InPhase(xs[j], owned, confirmed) ensures Judged(e, xs[j], VerdictOf(xs[j], ao(0)(xs[j].session), handoff(0)(xs[j].op))) {
        VerdictStays(db, e, xs[j], VerdictOf(xs[j], ao(0)(xs[j].session), handoff(0)(xs[j].op)), xs[i].op);
      }
    }

    lemma VerdictStays(db: DB, e: DB, x: Execution, v: Verdict, op: Id)
      requires Judged(db, x, v) && OthersSame(db, e, op) && x.op != op && DecisionsKept(db, e)
      ensures Judged(e, x, v)
    {
      assert SameExecution(db, e, x.op);
    }

    /** What became of one execution. */
    ghost predicate Answered(db: DB, e: DB, x: Execution) {
      && Reacted(db, e, x, ao(0)(x.session), handoff(0)(x.op))
      && ExecutionPasses(x, ao(0)(x.session), handoff(0)(x.op))
      && (Quiet(x, ao(0)(x.session), handoff(0)(x.op)) ==> SameTables(db, e))
      && Judged(e, x, VerdictOf(x, ao(0)(x.session), handoff(0)(x.op)))
    }

    lemma RowClassified(start: DB, db: DB, e: DB, xs: seq<Execution>, i: nat, owned: set<Id>, confirmed: bool)
      requires i < |xs| && InPhase(xs[i], owned, confirmed) && OthersSame(db, e, xs[i].op) && SameStops(db, e)
      requires xs[i].stage.SendRequested? ==> !SendLeft(e, xs[i].op)
      requires Steady() ==> Answered(db, e, xs[i])
      requires PhaseDone(start, db, xs, i, owned, confirmed) && ScanInv(db) && Shrinks(db, e)
      ensures PhaseDone(start, e, xs, i + 1, owned, confirmed)
    {
      hide Judged, VerdictOf, AllJudged, DecisionsKept, LeftDecided, ScanInv, Shrinks, BlockedKept, CandidatesSame, QuietBut, StopOwnedAttempts, SendOps, Ops, AllLive, Live, ExecutionPasses, Reacted, Quiet, OthersSame, SendLeft;
      assert xs[i..] == [xs[i]] + xs[i + 1..];
      ExecutionDone(start, db, e, xs[i], xs[i + 1..], owned, confirmed);
      SendOpsStep(xs, i, owned);
      DoneSoFar(start, db, xs, i, owned, confirmed);
      Unmoved(db, e);
      if Steady() { VerdictsStay(start, db, e, xs, i, owned, confirmed); }
      if Steady() && QuietBut(start, owned, confirmed, ao(0), handoff(0), {}) {
        QuietOne(start, db, xs[i], owned, confirmed, ao(0), handoff(0));
      }
    }

    lemma AllDone(start: DB, db: DB, xs: seq<Execution>, owned: set<Id>, confirmed: bool)
      requires PhaseDone(start, db, xs, |xs|, owned, confirmed)
      ensures Shrinks(start, db) && SameStops(start, db) && BlockedKept(start, db)
      ensures CandidatesSame(start, db, owned, {!confirmed}) && (!confirmed ==> forall d :: !SendLeft(db, d))
      ensures Steady() ==>
        && QuietBut(db, owned, confirmed, ao(0), handoff(0), {}) && Passed(xs, |xs|, owned, confirmed) && AllJudged(db, xs, |xs|, owned, confirmed)
        && (QuietBut(start, owned, !confirmed, ao(0), handoff(0), {}) ==> QuietBut(db, owned, !confirmed, ao(0), handoff(0), {}))
        && (QuietBut(start, owned, confirmed, ao(0), handoff(0), {}) ==> SameTables(start, db))
    {
      hide Shrinks, BlockedKept, CandidatesSame, QuietBut, StopOwnedAttempts, SendOps, Ops, AllLive, ExecutionPasses, SendLeft;
      assert xs[|xs|..] == [];
      NoOps();
    }

    lemma NoOps()
      ensures Ops([]) == {} && forall owned :: SendOps([], owned) == {}
    {}

    lemma BlockedSelf(db: DB)
      ensures BlockedKept(db, db)
    {}

    lemma CandidatesNow(db: DB, owned: set<Id>, phases: set<bool>)
      ensures CandidatesSame(db, db, owned, phases)
    {}

    lemma FirstLive(db: DB, xs: seq<Execution>)
      requires AllLive(db, xs) && |xs| > 0
      ensures Live(db, xs[0]) && (xs[0].state.Dispatched? || (xs[0].state.Running? && xs[0].stage.SendConfirmed?))
    {}

    /** The first of the remaining rows belongs to a live stop or to the other phase. */
    lemma RestSkipped(db: DB, rest: seq<Execution>, owned: set<Id>, confirmed: bool)
      requires |rest| > 0 && AllLive(db, rest) && !InPhase(rest[0], owned, confirmed)
      ensures AllLive(db, rest[1..])
      ensures QuietBut(db, owned, confirmed, ao(0), handoff(0), Ops(rest)) ==> QuietBut(db, owned, confirmed, ao(0), handoff(0), Ops(rest[1..]))
    {
      if QuietBut(db, owned, confirmed, ao(0), handoff(0), Ops(rest)) { Skipped(db, rest, owned, confirmed, ao(0), handoff(0)); }
    }

    /** The first of the remaining rows has been classified. */
    lemma ExecutionDone(start: DB, db: DB, e: DB, x: Execution, rest: seq<Execution>, owned: set<Id>, confirmed: bool)
      requires Shrinks(start, db) && Shrinks(db, e) && AllLive(db, [x] + rest) && InPhase(x, owned, confirmed)
      requires ScanInv(db) && BlockedKept(start, db) && OthersSame(db, e, x.op) && StopOwnedAttempts(db) <= owned
      requires Steady() ==> Reacted(db, e, x, ao(0)(x.session), handoff(0)(x.op))
      ensures Shrinks(start, e) && BlockedKept(start, e) && AllLive(e, rest) && StopOwnedAttempts(e) <= owned
      ensures forall d :: SendLeft(e, d) ==> SendLeft(db, d)
      ensures CandidatesSame(start, db, owned, {!confirmed}) ==> CandidatesSame(start, e, owned, {!confirmed})
      ensures Steady() && QuietBut(db, owned, confirmed, ao(0), handoff(0), Ops([x] + rest)) ==> QuietBut(e, owned, confirmed, ao(0), handoff(0), Ops(rest))
      ensures Steady() && QuietBut(db, owned, !confirmed, ao(0), handoff(0), {}) ==> QuietBut(e, owned, !confirmed, ao(0), handoff(0), {})
    {
      hide ScanInv, Shrinks, BlockedKept, OthersSame, Reacted, QuietBut, CandidatesSame, StopOwnedAttempts, Live, AllLive, Ops;
      var all := [x] + rest;
      assert all[0] == x && all[1..] == rest;
      ShrinksTwice(start, db, e);
      Unmoved(db, e);
      OwnedShrinks(db, e);
      RestLive(db, e, all);
      FirstLive(db, all);
      BlockedInOthers(db, e, x);
      BlockedKeptTwice(start, db, e);
      if Steady() { Classified(db, e, all, owned, confirmed, ao(0), handoff(0)); }
      CandidatesSameOthers(db, e, x, owned, !confirmed);
      if CandidatesSame(start, db, owned, {!confirmed}) { CandidatesSameTwice(start, db, e, owned, {!confirmed}); }
    }

    lemma SendOpsStep(xs: seq<Execution>, i: nat, owned: set<Id>)
      requires i < |xs|
      ensures forall d | d in SendOps(xs[i..], owned) :: d in SendOps(xs[i + 1..], owned)
                || (d == xs[i].op && xs[i].stage.SendRequested? && xs[i].attempt !in owned)
    {
      forall d | d in SendOps(xs[i..], owned)
        ensures d in SendOps(xs[i + 1..], owned) || (d == xs[i].op && xs[i].stage.SendRequested? && xs[i].attempt !in owned)
      {
        var k :| 0 <= k < |xs[i..]| && xs[i..][k].stage.SendRequested? && xs[i..][k].attempt !in owned && xs[i..][k].op == d;
        if k > 0 {
          assert xs[i + 1..][k - 1] == xs[i..][k];
        }
      }
    }

    // --- stops ------------------------------------------------------------------------------------------

    /** One in-flight stop: settled by an outcome, handed to a human, or left pending on AO. */
    method ClassifyStop(op: Id) returns (err: Error)
      requires ScanInv(store.db) && StopLeft(store.db, op)
      modifies this`gets, this`ticks, this`pendingAO, store
      ensures ScanInv(store.db) && StopTouched(old(store.db), store.db, op)
      ensures old(pendingAO) ==> pendingAO
      ensures err.Nil? ==> pendingAO || !StopLeft(store.db, op)
      ensures !err.Nil? ==> store.db == old(store.db)
      ensures Steady() && err.Nil? && StopLeft(store.db, op) ==> Waiting(store.db.stops[op], ao(0)(store.db.stops[op].target.session), clock(0))
      ensures Steady() && Waiting(old(store.db).stops[op], ao(0)(old(store.db).stops[op].target.session), clock(0)) ==> store.db == old(store.db)
      ensures err.Nil? ==> StopPasses(old(store.db), op, ao(old(gets))(old(store.db).stops[op].target.session), clock(old(ticks)))
      ensures SagaInv(old(store.db)) && StopPasses(old(store.db), op, ao(old(gets))(old(store.db).stops[op].target.session), clock(old(ticks))) ==> err.Nil?
      ensures Steady() && err.Nil? ==> op in store.db.stops && StopJudged(old(store.db).stops[op], store.db.stops[op], ao(0)(old(store.db).stops[op].target.session), clock(0))
    {
      hide ScanInv, SagaInv, StopTouched, StopPasses, Waiting, StopJudged;
      var x := store.db.stops[op];
      var answer := GetWorkerStatus(x.target.session);
      match answer
      case AoNotFound => err := StopMissing(op);
      case AoStatus(session, gen, _, terminated) => err := StopSeen(op, answer);
      case _ => err := StopUnseen(op, answer);
    }

    /** AO knows no such session. */
    method StopMissing(op: Id) returns (err: Error)
      requires ScanInv(store.db) && StopLeft(store.db, op)
      modifies this`ticks, store
      ensures ScanInv(store.db) && StopHandled(old(store.db), store.db, op, err, false, AoNotFound, clock(old(ticks)))
    {
      hide ScanInv, SagaInv, StopTouched, OutcomeFits, StopHandled, StopPasses, Waiting, StopTargets.Unreachable;
      ghost var before := store.db;
      var stage := store.db.stops[op].stage;
      InFlightStage(before, op);
      var now := Now();
      var o := StopTransactions.Outcome(stage, StopTargetAbsent, TargetAbsent, now, None);
      AbsentFits(before, op, now);
      err := Outcome(op, o);
      OutcomeHandled(before, store.db, op, o, err, false, AoNotFound, now);
    }

    /** AO answered neither the session nor its absence. */
    method StopUnseen(op: Id, answer: Answer) returns (err: Error)
      requires ScanInv(store.db) && StopLeft(store.db, op) && !answer.AoNotFound? && !answer.AoStatus?
      modifies this`ticks, this`pendingAO, store
      ensures ScanInv(store.db) && StopHandled(old(store.db), store.db, op, err, pendingAO, answer, clock(old(ticks)))
      ensures old(pendingAO) ==> pendingAO
    {
      hide ScanInv, SagaInv, StopTouched, OutcomeFits;
      ghost var before := store.db;
      var x := store.db.stops[op];
      Untouched(before, op);
      InFlightStage(before, op);
      if answer.AoEmpty? { return Invalid; }
      if x.stage.StopCallSucceeded? {
        if x.deadline.None? { return Invalid; }
        var now := Now();
        if now >= x.deadline.value {
          var at := Now();
          var o := StopTransactions.Outcome(StopCallSucceeded, StopCallSucceeded, ConfirmationTimeout, at, None);
          UnseenFits(before, op, answer, now, at);
          err := Outcome(op, o);
          OutcomeHandled(before, store.db, op, o, err, pendingAO, answer, now);
          return;
        }
      }
      pendingAO := true;
      err := Nil;
    }

    /** AO described a session. */
    method StopSeen(op: Id, answer: Answer) returns (err: Error)
      requires ScanInv(store.db) && StopLeft(store.db, op) && answer.AoStatus?
      modifies this`ticks, this`pendingAO, store
      ensures ScanInv(store.db) && StopHandled(old(store.db), store.db, op, err, pendingAO, answer, clock(old(ticks)))
      ensures old(pendingAO) ==> pendingAO
    {
      hide ScanInv, SagaInv, StopTouched, OutcomeFits;
      ghost var before := store.db;
      var x := store.db.stops[op];
      Untouched(before, op);
      InFlightStage(before, op);
      if answer.session != x.target.session { return Invalid; }
      var seen := Some(Observation(answer.session, answer.gen, answer.terminated));
      var now := Now();
      if answer.gen == x.target.gen && x.stage.StopRequested? && !answer.terminated {
        err := Abandon(op, answer.session, answer.gen, now);
        return;
      }
      if answer.gen == x.target.gen && x.stage.StopCallSucceeded? && x.deadline.Some? && now < x.deadline.value && !answer.terminated {
        pendingAO := true;
        return Nil;
      }
      var o := SeenOutcome(x, answer, now);
      SeenFits(before, op, answer, now);
      err := Outcome(op, o);
      OutcomeHandled(before, store.db, op, o, err, pendingAO, answer, now);
    }

    method Outcome(op: Id, o: StopTransactions.Outcome) returns (err: Error)
      requires ScanInv(store.db) && op in store.db.stops
      modifies store
      ensures ScanInv(store.db) && StopTouched(old(store.db), store.db, op)
      ensures err.Nil? ==> !StopLeft(store.db, op) && ShowsResult(store.db, op, o)
      ensures !err.Nil? ==> store.db == old(store.db)
      ensures err.Nil? ==> OutcomeFits(old(store.db).stops[op], o) && !StopTargets.Unreachable(old(store.db), op)
      ensures SagaInv(old(store.db)) && OutcomeFits(old(store.db).stops[op], o) && !StopTargets.Unreachable(old(store.db), op) ==> err.Nil?
    {
      hide ScanInv, SagaInv, StopTouched, StopOutcomeAdmits, OutcomeFits, StopTargets.Unreachable;
      ghost var before := store.db;
      Untouched(before, op);
      OutcomeCommits(before, op, o);
      err := StopStore.CommitStopOutcome(store, op, o);
      if err.Nil? { OutcomeTouches(before, op, o); }
    }

    method Abandon(op: Id, session: Id, gen: Id, now: Time) returns (err: Error)
      requires ScanInv(store.db) && StopLeft(store.db, op) && store.db.stops[op].stage.StopRequested?
      requires store.db.stops[op].target.session == session && store.db.stops[op].target.gen == gen
      modifies store
      ensures ScanInv(store.db) && StopTouched(old(store.db), store.db, op)
      ensures err.Nil? && !StopLeft(store.db, op) && op in store.db.stops
      ensures store.db.stops[op].stage == StopRequested && store.db.stops[op].resolution == ReissueRequiresHuman
    {
      hide ScanInv, StopTouched;
      ghost var before := store.db;
      AbandonCommits(before, op);
      err := StopStore.ClassifyAbandonedStopAlive(store, op, session, gen, now);
      if AbandonedAdmits(before, op, session, gen) { AbandonedTouches(before, op, session, gen, now); }
    }

    /** stopWinner: another writer has moved the stop. */
    method StopWinner(op: Id, x: Stop) returns (err: Error)
      ensures err.Nil? <==> StopMoved(store.db, op, x)
    {
      if !StopMoved(store.db, op, x) { return StateConflict; }
      return Nil;
    }

    ghost predicate SurelyStops(db: DB) { forall o :: StopLeft(db, o) ==> SurelyStop(db, o) }

    /** Every in-flight stop of a database was given an answer that passes. */
    ghost predicate StopsPass(db: DB) { forall o :: StopLeft(db, o) ==> StopPasses(db, o, ao(0)(db.stops[o].target.session), clock(0)) }

    /** A stranded stop whose deadline has passed by every reading of the clock. */
    ghost predicate OverdueNow(db: DB, o: Id) { forall i: nat :: Overdue(db, o, clock(i)) }

    method ClassifyStops(q: seq<Id>, rows: map<Id, Stop>, ghost owned: set<Id>) returns (ok: bool)
      requires StopOwnedAttempts(store.db) <= owned
      requires ScanInv(store.db) && forall o :: StopLeft(store.db, o) <==> o in q
      requires forall i, j | 0 <= i < j < |q| :: q[i] != q[j]
      requires rows == store.db.stops
      modifies this`gets, this`ticks, this`polls, this`classified, this`pendingAO, store
      ensures ScanInv(store.db) && Shrinks(old(store.db), store.db)
      ensures ok && !pendingAO ==> forall o :: !StopLeft(store.db, o)
      ensures old(pendingAO) ==> pendingAO
      ensures ok ==> forall o :: !OverdueNow(old(store.db), o)
      ensures ok && Steady() ==> StopsWait(store.db, ao(0), clock(0))
      ensures Steady() && QuietBut(old(store.db), owned, false, ao(0), handoff(0), {}) ==> QuietBut(store.db, owned, false, ao(0), handoff(0), {})
      ensures Steady() && StopsWait(old(store.db), ao(0), clock(0)) ==> store.db == old(store.db)
      // an answer that passes for every stop, and only that, lets the loop through
      ensures NeverCancelled() && SagaInv(old(store.db)) && SurelyStops(old(store.db)) ==> ok
      ensures Steady() && ok ==> StopsPass(old(store.db))
      ensures CandidatesSame(old(store.db), store.db, owned, {true, false}) && BlockedKept(old(store.db), store.db)
      ensures ok ==> classified == old(classified) + |q|
      ensures Steady() && ok ==> StopsJudged(old(store.db), store.db)
    {
      hide ScanInv, SagaInv, StopJudged, StopsJudged, StopOwnedAttempts, StopPasses, StopTouched, SurelyStop, StopsDone, StopAnswered, CandidatesSame, BlockedKept, Shrinks, QuietBut, StopsWait, StopsPass;
      ghost var start := store.db;
      NoStopsDone(start, q, rows, owned, pendingAO);
      for i := 0 to |q|
        invariant ScanInv(store.db) && (old(pendingAO) ==> pendingAO)
        invariant StopsDone(start, store.db, q, rows, i, owned, pendingAO)
        invariant classified == old(classified) + i
      {
        var stopped := Interrupted();
        ghost var before, pending := store.db, pendingAO;
        NextStopIs(start, before, q, rows, i, owned, pending);
        if stopped { return false; }
        var x := rows[q[i]];
        StopAsked(start, before, q[i], ao(gets)(x.target.session), ticks);
        var err := ClassifyStop(q[i]);
        StopMoves(start, before, store.db, q, rows, i, owned, pending, pendingAO, err.Nil?);
        if err.StateConflict? { err := StopWinner(q[i], x); }
        if !err.Nil? { return false; }
        classified := classified + 1;
      }
      AllStopsDone(start, store.db, q, rows, owned, pendingAO);
      return true;
    }

    /** Every in-flight stop of start shows the verdict of its answer. */
    ghost predicate StopsJudged(start: DB, db: DB) {
      forall o :: StopLeft(start, o) ==> StopShows(start, db, o)
    }

    ghost predicate StopShows(start: DB, db: DB, o: Id) {
      o in start.stops && o in db.stops && StopJudged(start.stops[o], db.stops[o], ao(0)(start.stops[o].target.session), clock(0))
    }

    /** What the loop has made of the stops before position i. */
    ghost predicate StopsDone(start: DB, db: DB, q: seq<Id>, rows: map<Id, Stop>, i: nat, owned: set<Id>, pending: bool) {
      && i <= |q| && Shrinks(start, db) && StopOwnedAttempts(db) <= owned && CandidatesSame(start, db, owned, {true, false}) && BlockedKept(start, db)
      && (QuietBut(start, owned, false, ao(0), handoff(0), {}) ==> QuietBut(db, owned, false, ao(0), handoff(0), {}))
      && (Steady() && StopsWait(start, ao(0), clock(0)) ==> db == start)
      && (Steady() ==> forall o :: StopLeft(db, o) && o !in q[i..] ==> Waiting(db.stops[o], ao(0)(db.stops[o].target.session), clock(0)))
      && (!pending ==> forall o :: StopLeft(db, o) ==> o in q[i..])
      && (forall j | 0 <= j < i :: StopAnswered(start, q[j]))
      && (Steady() ==> forall j | 0 <= j < i :: StopShows(start, db, q[j]))
      && (forall j | i <= j < |q| :: q[j] in db.stops && q[j] in rows && db.stops[q[j]] == rows[q[j]] && StopLeft(start, q[j]) && start.stops[q[j]] == rows[q[j]] && rows[q[j]].resolution.InFlight?)
    }

    /** It was given an answer that passes. */
    ghost predicate StopAnswered(start: DB, o: Id) {
      && !OverdueNow(start, o)
      && (Steady() ==> o in start.stops && StopPasses(start, o, ao(0)(start.stops[o].target.session), clock(0)))
    }

    lemma NoStopsDone(start: DB, q: seq<Id>, rows: map<Id, Stop>, owned: set<Id>, pending: bool)
      requires StopOwnedAttempts(start) <= owned && (forall o :: StopLeft(start, o) <==> o in q) && rows == start.stops
      ensures StopsDone(start, start, q, rows, 0, owned, pending)
    {
      hide Shrinks, QuietBut, CandidatesSame, StopOwnedAttempts, BlockedKept;
      ShrinksSelf(start);
      CandidatesNow(start, owned, {true, false});
      BlockedSelf(start);
      forall j | 0 <= j < |q| ensures StopLeft(start, q[j]) { assert q[j] in q; }
    }

    lemma NextStopIs(start: DB, db: DB, q: seq<Id>, rows: map<Id, Stop>, i: nat, owned: set<Id>, pending: bool)
      requires StopsDone(start, db, q, rows, i, owned, pending)
      ensures Shrinks(start, db) && CandidatesSame(start, db, owned, {true, false}) && BlockedKept(start, db)
      ensures QuietBut(start, owned, false, ao(0), handoff(0), {}) ==> QuietBut(db, owned, false, ao(0), handoff(0), {})
      ensures Steady() && StopsWait(start, ao(0), clock(0)) ==> db == start
      ensures i < |q| ==> q[i] in rows && StopLeft(db, q[i]) && db.stops[q[i]] == rows[q[i]] && StopLeft(start, q[i]) && start.stops[q[i]] == rows[q[i]]
    {
      hide Shrinks, QuietBut, CandidatesSame, StopOwnedAttempts, BlockedKept, StopAnswered, StopsWait;
    }

    /** One stop further. */
    lemma StopMoves(start: DB, db: DB, e: DB, q: seq<Id>, rows: map<Id, Stop>, i: nat, owned: set<Id>, was: bool, pending: bool, ok: bool)
      requires StopsDone(start, db, q, rows, i, owned, was) && i < |q| && StopTouched(db, e, q[i]) && (was ==> pending)
      requires forall j, k | 0 <= j < k < |q| :: q[j] != q[k]
      requires ok ==> StopAnswered(start, q[i]) && (pending || !StopLeft(e, q[i])) && (Steady() ==> StopShows(start, e, q[i]))
      requires !ok ==> e == db
      requires Steady() && ok && StopLeft(e, q[i]) ==> Waiting(e.stops[q[i]], ao(0)(e.stops[q[i]].target.session), clock(0))
      requires Steady() && Waiting(rows[q[i]], ao(0)(rows[q[i]].target.session), clock(0)) ==> e == db
      ensures ok ==> StopsDone(start, e, q, rows, i + 1, owned, pending)
      ensures !ok ==> StopsDone(start, e, q, rows, i, owned, pending)
    {
      if ok {
        hide Shrinks, QuietBut, CandidatesSame, StopOwnedAttempts, BlockedKept, StopAnswered, StopTouched, Waiting;
        StopClassified(start, db, e, q[i], owned);
        assert q[i..] == [q[i]] + q[i + 1..];
      } else {
        hide Shrinks, QuietBut, CandidatesSame, StopOwnedAttempts, BlockedKept, StopAnswered, StopTouched, Waiting, StopsWait;
      }
    }

    lemma AllStopsDone(start: DB, db: DB, q: seq<Id>, rows: map<Id, Stop>, owned: set<Id>, pending: bool)
      requires StopsDone(start, db, q, rows, |q|, owned, pending) && forall o :: StopLeft(start, o) <==> o in q
      ensures Shrinks(start, db) && CandidatesSame(start, db, owned, {true, false}) && BlockedKept(start, db)
      ensures QuietBut(start, owned, false, ao(0), handoff(0), {}) ==> QuietBut(db, owned, false, ao(0), handoff(0), {})
      ensures Steady() && StopsWait(start, ao(0), clock(0)) ==> db == start
      ensures Steady() ==> StopsWait(db, ao(0), clock(0)) && StopsPass(start) && StopsJudged(start, db)
      ensures !pending ==> forall o :: !StopLeft(db, o)
      ensures forall o :: !OverdueNow(start, o)
    {
      hide Shrinks, QuietBut, CandidatesSame, StopOwnedAttempts, BlockedKept, Waiting, OverdueNow, StopPasses;
      forall o | StopLeft(start, o) ensures StopAnswered(start, o) && (Steady() ==> StopShows(start, db, o)) {
        var j :| 0 <= j < |q| && q[j] == o;
      }
      forall o ensures OverdueNow(start, o) ==> StopLeft(start, o) { OverdueLeft(start, o); }
    }

    lemma OverdueLeft(db: DB, o: Id)
      ensures OverdueNow(db, o) ==> StopLeft(db, o)
    {
      if OverdueNow(db, o) {
        assert Overdue(db, o, clock(0));
        OverdueRow(db, o, clock(0));
      }
    }

    /** What the stop has to be answered is still what its row in the snapshot had to be. */
    lemma StopAsked(start: DB, db: DB, o: Id, answer: Answer, tick: nat)
      requires ScanInv(start) && Shrinks(start, db) && StopLeft(start, o) && o in db.stops && db.stops[o] == start.stops[o]
      ensures StopPasses(start, o, answer, clock(tick)) <==> StopPasses(db, o, answer, clock(tick))
      ensures StopPasses(start, o, answer, clock(tick)) && (Steady() ==> answer == ao(0)(start.stops[o].target.session)) ==> StopAnswered(start, o)
      ensures SagaInv(start) ==> SagaInv(db)
      ensures SurelyStop(start, o) ==> forall k: nat :: ao(k)(start.stops[o].target.session) == answer ==> StopPasses(start, o, answer, clock(tick))
    {
      hide ScanInv, SagaInv, RuntimesKept, StopPasses, LeavesLess, OwnersKept, StrandedKept, StagesKept, Overdue;
      StopPassesSame(start, db, o, answer, clock(tick));
      if OverdueNow(start, o) { OverdueFails(start, o, answer, clock(tick)); }
    }

    lemma StopClassified(start: DB, db: DB, e: DB, op: Id, owned: set<Id>)
      requires Shrinks(start, db) && StopTouched(db, e, op) && BlockedKept(start, db) && StopOwnedAttempts(db) <= owned
      ensures Shrinks(start, e) && StopOwnedAttempts(e) <= owned && OtherStopsKept(db, e, op)
      ensures forall o :: StopLeft(e, o) ==> StopLeft(db, o)
      ensures QuietBut(db, owned, false, ao(0), handoff(0), {}) ==> QuietBut(e, owned, false, ao(0), handoff(0), {})
      ensures BlockedKept(start, e) && (CandidatesSame(start, db, owned, {true, false}) ==> CandidatesSame(start, e, owned, {true, false}))
    {
      hide Shrinks, UnownedSame, QuietBut, StopOwnedAttempts, Overdue, CandidatesSame, BlockedKept;
      BlockedKeptTwice(start, db, e);
      ShrinksTwice(start, db, e);
      StopsRemain(db, e);
      OwnedShrinks(db, e);
      CandidatesSameUnowned(db, e, owned, {true, false});
      if CandidatesSame(start, db, owned, {true, false}) { CandidatesSameTwice(start, db, e, owned, {true, false}); }
      if QuietBut(db, owned, false, ao(0), handoff(0), {}) { QuietUnowned(db, e, owned, false, ao(0), handoff(0)); }
    }

    lemma StopsRemain(db: DB, e: DB)
      requires Shrinks(db, e)
      ensures forall o :: StopLeft(e, o) ==> StopLeft(db, o)
    {
      hide SagaInv;
    }

    // --- blocked attempts -------------------------------------------------------------------------------

    method CloseBlocked(q: seq<Id>, rows: map<Id, Attempt>, ghost owned: set<Id>) returns (ok: bool)
      requires ScanInv(store.db) && forall a :: BlockedLeft(store.db, a) <==> a in q
      requires forall i, j | 0 <= i < j < |q| :: q[i] != q[j]
      requires forall a | a in q :: a in rows
      requires forall a | a in rows :: a in store.db.attempts && store.db.attempts[a].lineage == rows[a].lineage
      modifies this`ticks, this`polls, this`classified, store
      ensures ScanInv(store.db) && Shrinks(old(store.db), store.db)
      ensures ok ==> forall a :: !BlockedLeft(store.db, a)
      ensures NeverCancelled() ==> ok
      ensures ok ==> classified == old(classified) + |q|
      ensures QuietBut(old(store.db), owned, false, ao(0), handoff(0), {}) ==> QuietBut(store.db, owned, false, ao(0), handoff(0), {})
      ensures CandidatesSame(old(store.db), store.db, owned, {true, false})
      ensures SameStops(old(store.db), store.db) && (q == [] ==> store.db == old(store.db))
    {
      hide ScanInv, Shrinks, QuietBut, CandidatesSame, BlockedDone, ClosureAdmits, ClosureCommit;
      ghost var start := store.db;
      ShrinksSelf(start);
      CandidatesNow(start, owned, {true, false});
      NoBlockedDone(start, q, rows);
      for i := 0 to |q|
        invariant ScanInv(store.db) && Shrinks(start, store.db)
        invariant QuietBut(start, owned, false, ao(0), handoff(0), {}) ==> QuietBut(store.db, owned, false, ao(0), handoff(0), {})
        invariant CandidatesSame(start, store.db, owned, {true, false})
        invariant SameStops(start, store.db) && (q == [] ==> store.db == start)
        invariant BlockedDone(store.db, q, rows, i)
        invariant classified == old(classified) + i
      {
        var stopped := Interrupted();
        if stopped { return false; }
        var a := q[i];
        ghost var before := store.db;
        NextBlocked(before, q, rows, i);
        var task := rows[a].lineage.task;
        var now := Now();
        var err := DispatchStore.AtomicAttemptClosureTransition(store, task, a, now);
        BlockedClosed(start, before, store.db, a, now, owned);
        OneBlockedLess(before, store.db, q, rows, i);
        if err.StateConflict? { err := BlockedWinner(task, a); }
        if !err.Nil? { return false; }
        classified := classified + 1;
      }
      AllBlockedDone(store.db, q, rows);
      return true;
    }

    /** The blocked attempts from position i on are those still left. */
    ghost predicate BlockedDone(db: DB, q: seq<Id>, rows: map<Id, Attempt>, i: nat) {
      && i <= |q| && (forall a :: BlockedLeft(db, a) <==> a in q[i..])
      && (forall a | a in q :: a in rows)
      && forall a | a in rows :: a in db.attempts && db.attempts[a].lineage == rows[a].lineage
    }

    lemma NoBlockedDone(db: DB, q: seq<Id>, rows: map<Id, Attempt>)
      requires forall a :: BlockedLeft(db, a) <==> a in q
      requires forall a | a in q :: a in rows
      requires forall a | a in rows :: a in db.attempts && db.attempts[a].lineage == rows[a].lineage
      ensures BlockedDone(db, q, rows, 0)
    {
      hide BlockedLeft;
      assert q[0..] == q;
    }

    lemma NextBlocked(db: DB, q: seq<Id>, rows: map<Id, Attempt>, i: nat)
      requires ScanInv(db) && BlockedDone(db, q, rows, i) && i < |q|
      ensures BlockedLeft(db, q[i]) && q[i] in rows && rows[q[i]].lineage == db.attempts[q[i]].lineage
      ensures ClosureAdmits(db, db.attempts[q[i]].lineage.task, q[i])
    {
      hide ScanInv, BlockedLeft;
      assert q[i] in q[i..] && q[i] in q;
      BlockedCloses(db, q[i]);
    }

    lemma OneBlockedLess(db: DB, e: DB, q: seq<Id>, rows: map<Id, Attempt>, i: nat)
      requires BlockedDone(db, q, rows, i) && i < |q| && OwnersKept(db, e)
      requires forall j, k | 0 <= j < k < |q| :: q[j] != q[k]
      requires forall k :: BlockedLeft(e, k) <==> BlockedLeft(db, k) && k != q[i]
      ensures BlockedDone(e, q, rows, i + 1)
    {
      hide BlockedLeft;
      assert q[i..] == [q[i]] + q[i + 1..];
    }

    lemma AllBlockedDone(db: DB, q: seq<Id>, rows: map<Id, Attempt>)
      requires BlockedDone(db, q, rows, |q|)
      ensures forall a :: !BlockedLeft(db, a)
    {
      hide BlockedLeft;
    }

    lemma BlockedClosed(start: DB, db: DB, e: DB, a: Id, now: Time, owned: set<Id>)
      requires ScanInv(db) && Shrinks(start, db) && BlockedLeft(db, a) && Closes(db, e, a, now)
      ensures ScanInv(e) && Shrinks(start, e) && SameStops(db, e)
      ensures forall k :: BlockedLeft(e, k) <==> BlockedLeft(db, k) && k != a
      ensures QuietBut(db, owned, false, ao(0), handoff(0), {}) ==> QuietBut(e, owned, false, ao(0), handoff(0), {})
      ensures OwnersKept(db, e) && (CandidatesSame(start, db, owned, {true, false}) ==> CandidatesSame(start, e, owned, {true, false}))
    {
      hide ScanInv, Shrinks, OwnersKept, QuietBut, CandidatesSame, BlockedLeft, ClosureAdmits;
      var task := db.attempts[a].lineage.task;
      ScanStep(db, ExecutionStep(Closure(task, a, now)));
      ShrinksTwice(start, db, e);
      if QuietBut(db, owned, false, ao(0), handoff(0), {}) { ClosureCarries(db, task, a, now, owned, false, ao(0), handoff(0)); }
      CandidatesSameClosure(db, task, a, now, owned, {true, false});
      if CandidatesSame(start, db, owned, {true, false}) { CandidatesSameTwice(start, db, e, owned, {true, false}); }
      ClosureLeavesBlocked(db, a, now);
      ScannedClosure(db, e);
    }

    lemma ScannedClosure(db: DB, e: DB)
      requires Shrinks(db, e)
      ensures OwnersKept(db, e)
    {
      hide SagaInv;
    }

    /** Another writer has escalated the blocked attempt. */
    method BlockedWinner(task: Id, a: Id) returns (err: Error)
      ensures err.Nil? <==> EscalatedMeanwhile(store.db, task, a)
    {
      if !EscalatedMeanwhile(store.db, task, a) { return StateConflict; }
      return Nil;
    }

    static predicate EscalatedMeanwhile(db: DB, task: Id, a: Id) {
      && task in db.tasks && db.tasks[task].state.HumanRequired?
      && a in db.attempts && db.attempts[a].ended.Some? && db.attempts[a].disposition == Some(AoBlockedEscalated)
    }

    // --- the whole sweep -----------------------------------------------------------------------------------

    ghost predicate SurelyExecutions(db: DB, owned: set<Id>, confirmed: bool) {
      forall d :: Candidate(db, d, owned, confirmed) ==> Surely(ExecutionOf(db, d))
    }

    /** Every candidate of one send phase was given an answer that passes. */
    ghost predicate ExecutionsPass(db: DB, owned: set<Id>, confirmed: bool) {
      forall d :: Candidate(db, d, owned, confirmed) ==> ExecutionPasses(ExecutionOf(db, d), ao(0)(ExecutionOf(db, d).session), handoff(0)(d))
    }

    /** The rows of a list are the candidates of their database. */
    lemma RowsAsked(db: DB, xs: seq<Execution>, owned: set<Id>, confirmed: bool)
      requires AllLive(db, xs) && forall d :: Candidate(db, d, owned, confirmed) ==> d in Ops(xs)
      ensures SurelyExecutions(db, owned, confirmed) ==> SurelyAll(xs, owned, confirmed)
      ensures Passed(xs, |xs|, owned, confirmed) ==> ExecutionsPass(db, owned, confirmed)
    {
      hide Surely, ExecutionPasses;
      forall j | 0 <= j < |xs| && InPhase(xs[j], owned, confirmed) ensures Candidate(db, xs[j].op, owned, confirmed) {}
      if Passed(xs, |xs|, owned, confirmed) {
        forall d | Candidate(db, d, owned, confirmed)
          ensures ExecutionPasses(ExecutionOf(db, d), ao(0)(ExecutionOf(db, d).session), handoff(0)(d))
        {
          var i :| 0 <= i < |xs| && xs[i].op == d;
          assert InPhase(xs[i], owned, confirmed);
        }
      }
    }

    lemma SameAsked(db: DB, e: DB, owned: set<Id>, confirmed: bool)
      requires ExecutionsSame(db, e) || CandidatesSame(db, e, owned, {confirmed})
      ensures SurelyExecutions(db, owned, confirmed) <==> SurelyExecutions(e, owned, confirmed)
      ensures ExecutionsPass(db, owned, confirmed) <==> ExecutionsPass(e, owned, confirmed)
    {
      hide Surely, ExecutionPasses;
      forall d
        ensures Candidate(db, d, owned, confirmed) <==> Candidate(e, d, owned, confirmed)
        ensures Candidate(db, d, owned, confirmed) ==> ExecutionOf(e, d) == ExecutionOf(db, d)
      {
        if ExecutionsSame(db, e) { assert SameExecution(db, e, d); }
      }
    }

    /** Every candidate of one send phase of db shows, in e, the verdict of its answer. */
    ghost predicate ExecutionsJudged(db: DB, e: DB, owned: set<Id>, confirmed: bool) {
      forall d :: Candidate(db, d, owned, confirmed) ==>
        Judged(e, ExecutionOf(db, d), VerdictOf(ExecutionOf(db, d), ao(0)(ExecutionOf(db, d).session), handoff(0)(d)))
    }

    lemma RowsJudged(db: DB, e: DB, xs: seq<Execution>, owned: set<Id>, confirmed: bool)
      requires AllLive(db, xs) && (forall d :: Candidate(db, d, owned, confirmed) ==> d in Ops(xs)) && AllJudged(e, xs, |xs|, owned, confirmed)
      ensures ExecutionsJudged(db, e, owned, confirmed)
    {
      hide Judged, VerdictOf;
      forall d | Candidate(db, d, owned, confirmed)
        ensures Judged(e, ExecutionOf(db, d), VerdictOf(ExecutionOf(db, d), ao(0)(ExecutionOf(db, d).session), handoff(0)(d)))
      {
        var i :| 0 <= i < |xs| && xs[i].op == d;
        assert InPhase(xs[i], owned, confirmed);
      }
    }

    /** The same candidates have the same verdicts. */
    lemma SameJudged(db: DB, same: DB, e: DB, owned: set<Id>, confirmed: bool)
      requires ExecutionsSame(db, same) || CandidatesSame(db, same, owned, {confirmed})
      requires ExecutionsJudged(same, e, owned, confirmed)
      ensures ExecutionsJudged(db, e, owned, confirmed)
    {
      hide Judged, VerdictOf;
      forall d | Candidate(db, d, owned, confirmed)
        ensures Judged(e, ExecutionOf(db, d), VerdictOf(ExecutionOf(db, d), ao(0)(ExecutionOf(db, d).session), handoff(0)(d)))
      {
        if ExecutionsSame(db, same) { assert SameExecution(db, same, d); }
        assert Candidate(same, d, owned, confirmed);
      }
    }

    /** The verdicts of the first phase outlive what the sweep does afterwards. */
    lemma JudgedCarries(db: DB, e: DB, f: DB, owned: set<Id>)
      requires ExecutionsJudged(db, e, owned, false) && CandidatesSame(e, f, owned, {false}) && DecisionsKept(e, f)
      ensures ExecutionsJudged(db, f, owned, false)
    {
      hide ExecutionsJudged, CandidatesSame, DecisionsKept, Judged, VerdictOf;
      forall d | Candidate(db, d, owned, false)
        ensures Judged(f, ExecutionOf(db, d), VerdictOf(ExecutionOf(db, d), ao(0)(ExecutionOf(db, d).session), handoff(0)(d)))
      {
        JudgedOne(db, d, owned, e);
        UnsentStays(e, f, ExecutionOf(db, d), VerdictOf(ExecutionOf(db, d), ao(0)(ExecutionOf(db, d).session), handoff(0)(d)), owned);
      }
      AllJudgedOnes(db, f, owned);
    }

    lemma JudgedOne(db: DB, d: Id, owned: set<Id>, e: DB)
      requires ExecutionsJudged(db, e, owned, false) && Candidate(db, d, owned, false)
      ensures Judged(e, ExecutionOf(db, d), VerdictOf(ExecutionOf(db, d), ao(0)(ExecutionOf(db, d).session), handoff(0)(d)))
      ensures var x := ExecutionOf(db, d); x.attempt !in owned && !x.stage.SendConfirmed? && x.state.Dispatched?
      ensures var x := ExecutionOf(db, d); var v := VerdictOf(x, ao(0)(x.session), handoff(0)(d)); v.Open? ==> v.state == Dispatched
    {}

    lemma AllJudgedOnes(db: DB, e: DB, owned: set<Id>)
      requires forall d | Candidate(db, d, owned, false) ::
                 Judged(e, ExecutionOf(db, d), VerdictOf(ExecutionOf(db, d), ao(0)(ExecutionOf(db, d).session), handoff(0)(d)))
      ensures ExecutionsJudged(db, e, owned, false)
    {}

    lemma UnsentStays(e: DB, f: DB, x: Execution, v: Verdict, owned: set<Id>)
      requires Judged(e, x, v) && x.attempt !in owned && !x.stage.SendConfirmed? && (v.Open? ==> v.state == Dispatched)
      requires CandidatesSame(e, f, owned, {false}) && DecisionsKept(e, f)
      ensures Judged(f, x, v)
    {
      if v.Open? { assert Candidate(e, x.op, owned, false); }
    }

    /** Restores, provisionings and unconfirmed sends of a snapshot. */
    method ClassifyIntents(snap: DB, owned: set<Id>) returns (ok: bool)
      requires ScanInv(store.db) && snap == store.db && owned == StopOwnedAttempts(snap)
      modifies this`gets, this`ticks, this`polls, this`classified, this`pendingAO, store
      ensures ScanInv(store.db)
      ensures ok ==> Shrinks(snap, store.db) && SameStops(snap, store.db) && CandidatesSame(snap, store.db, owned, {true}) && BlockedKept(snap, store.db)
      ensures ok ==> (forall r :: !RestoreLeft(store.db, r)) && (forall p :: !ProvisionLeft(store.db, p)) && (forall d :: !SendLeft(store.db, d))
      ensures ok && Steady() ==> QuietBut(store.db, owned, false, ao(0), handoff(0), {})
      ensures Steady() && Settled(snap, ao(0), handoff(0), clock(0)) ==> SameTables(snap, store.db)
      ensures NeverCancelled() && SurelyExecutions(snap, owned, false) ==> ok
      ensures ok ==> classified == old(classified) + |InFlightRestores(snap)| + |UnansweredProvisions(snap)| + |Candidates(snap, owned, false)|
      ensures Steady() && ok ==> ExecutionsPass(snap, owned, false) && ExecutionsJudged(snap, store.db, owned, false)
    {
      hide ExecutionsJudged, AllJudged, BlockedKept, ScanInv, Shrinks, QuietBut, StopsWait, AllLive, ExecutionsSame, Candidate, Ops, SendOps, StopOwnedAttempts, RestoreLeft, ProvisionLeft, StopLeft, BlockedLeft, SendLeft, StrandedKept, OwnersKept;
      hide InFlightRestores, UnansweredProvisions, Candidates, CountIn, SagaKept, CandidatesSame, SurelyExecutions, SurelyAll, ExecutionsPass, Passed;
      var restores := ListedRestores(snap);
      var provisions := ListedProvisions(snap);
      var executions := Executions();
      forall d | SendLeft(snap, d) ensures d in SendOps(executions, owned) { SendLeftListed(snap, executions, d); }
      ok := ClassifyRestores(restores);
      if !ok { return; }
      ghost var restored := store.db;
      Unmoved(snap, restored);
      OwnedShrinks(snap, restored);
      SameProvisions(snap, restored);
      ok := FailProvisionings(provisions);
      if !ok { return; }
      ghost var failed := store.db;
      ShrinksTwice(snap, restored, failed);
      Unmoved(snap, failed);
      OwnedShrinks(snap, failed);
      ExecutionsSameTwice(snap, restored, failed);
      CandidatesSameAll(snap, failed, owned, {true});
      BlockedInAll(snap, failed);
      LiveStays(snap, failed, executions);
      StillListed(snap, failed, executions, owned, false);
      RowsAsked(failed, executions, owned, false);
      CountsCandidates(failed, executions, owned, false);
      SameCandidates(snap, failed, owned, false);
      SameAsked(snap, failed, owned, false);
      ok := ClassifyExecutions(executions, owned, false);
      if ok && Steady() {
        RowsJudged(failed, store.db, executions, owned, false);
        SameJudged(snap, failed, store.db, owned, false);
      }
      ShrinksTwice(snap, failed, store.db);
      CandidatesSameTwice(snap, failed, store.db, owned, {true});
      Unmoved(restored, failed);
      Unmoved(failed, store.db);
      BlockedKeptTwice(snap, failed, store.db);
    }

    lemma SameProvisions(db: DB, e: DB)
      requires e.provisions == db.provisions
      ensures forall p :: ProvisionLeft(e, p) <==> ProvisionLeft(db, p)
    {}

    lemma Unmoved(db: DB, e: DB)
      requires Shrinks(db, e)
      ensures LeavesLess(db, e) && OwnersKept(db, e) && StrandedKept(db, e) && StagesKept(db, e) && RuntimesKept(db, e) && SagaKept(db, e)
      ensures DecisionsKept(db, e) && LeftDecided(db, e)
    {
      hide SagaInv;
    }

    /** In-flight stops and blocked attempts of the same snapshot. */
    method ClassifyOwned(snap: DB, ghost owned: set<Id>) returns (ok: bool)
      requires ScanInv(snap) && ScanInv(store.db) && Shrinks(snap, store.db) && SameStops(snap, store.db) && owned == StopOwnedAttempts(snap)
      requires BlockedKept(snap, store.db)
      modifies this`gets, this`ticks, this`polls, this`classified, this`pendingAO, store
      ensures ScanInv(store.db)
      ensures ok ==> Shrinks(old(store.db), store.db) && CandidatesSame(old(store.db), store.db, owned, {true, false})
      ensures ok ==> forall a :: !BlockedLeft(store.db, a)
      ensures old(pendingAO) ==> pendingAO
      ensures ok && !pendingAO ==> forall o :: !StopLeft(store.db, o)
      ensures ok ==> forall o :: !OverdueNow(snap, o)
      ensures ok && Steady() ==> StopsWait(store.db, ao(0), clock(0))
      ensures ok && Steady() && QuietBut(old(store.db), owned, false, ao(0), handoff(0), {}) ==> QuietBut(store.db, owned, false, ao(0), handoff(0), {})
      ensures Steady() && Settled(snap, ao(0), handoff(0), clock(0)) ==> store.db == old(store.db)
      ensures NeverCancelled() && SagaInv(snap) && SurelyStops(snap) ==> ok
      ensures ok ==> classified == old(classified) + |InFlightStops(snap)| + |BlockedAttempts(snap)|
      ensures Steady() && ok ==> StopsPass(snap) && StopsJudged(snap, store.db)
    {
      hide StopShows, DecisionsKept, LeftDecided, ScanInv, SagaInv, Shrinks, QuietBut, StopsWait, StopOwnedAttempts, Overdue, RestoreLeft, ProvisionLeft, SendLeft, BlockedLeft, Waiting;
      hide CandidatesSame, SurelyStops, StopsPass, OverdueNow, InFlightStops, BlockedAttempts;
      ghost var before := store.db;
      Unmoved(snap, before);
      OwnedShrinks(snap, before);
      StopsAsked(snap, before);
      OverdueRemains(snap, before);
      var stops := ListedStops(snap);
      var blocked := ListedBlocked(snap);
      if StopsWait(snap, ao(0), clock(0)) { WaitCarries(snap, before, ao(0), clock(0)); }
      ok := ClassifyStops(stops, snap.stops, owned);
      if !ok { return; }
      ghost var stopped := store.db;
      Unmoved(before, stopped);
      ok := CloseBlocked(blocked, snap.attempts, owned);
      if !ok { return; }
      ShrinksTwice(before, stopped, store.db);
      CandidatesSameTwice(before, stopped, store.db, owned, {true, false});
      Unmoved(stopped, store.db);
      if StopsWait(stopped, ao(0), clock(0)) { WaitCarries(stopped, store.db, ao(0), clock(0)); }
      if Steady() { StopsShown(snap, before, stopped, store.db); }
    }

    lemma StopsShown(snap: DB, before: DB, stopped: DB, e: DB)
      requires SameStops(snap, before) && StopsJudged(before, stopped) && SameStops(stopped, e)
      ensures StopsJudged(snap, e)
    {
      forall o | StopLeft(snap, o) ensures StopShows(snap, e, o) { assert StopLeft(before, o) && StopShows(before, stopped, o); }
    }

    lemma StopsAsked(db: DB, e: DB)
      requires ScanInv(db) && Shrinks(db, e) && SameStops(db, e)
      ensures SurelyStops(db) ==> SurelyStops(e)
      ensures StopsPass(e) ==> StopsPass(db)
    {
      hide ScanInv, SagaInv, Shrinks, StopPasses, OverdueNow;
      forall o, answer, tick: nat | StopLeft(db, o)
        ensures StopPasses(db, o, answer, clock(tick)) <==> StopPasses(e, o, answer, clock(tick))
      {
        StopAsked(db, e, o, answer, tick);
      }
      forall o ensures StopLeft(db, o) <==> StopLeft(e, o) {}
    }

    lemma OverdueRemains(db: DB, e: DB)
      requires StrandedKept(db, e)
      ensures forall o :: OverdueNow(db, o) ==> OverdueNow(e, o)
    {
      hide Overdue;
    }

    /** The confirmed sends of a second snapshot: stops and blocked attempts may have closed some. */
    method ClassifySent(ghost snap: DB, owned: set<Id>) returns (ok: bool)
      requires ScanInv(store.db) && Shrinks(snap, store.db) && CandidatesSame(snap, store.db, owned, {true}) && owned == StopOwnedAttempts(snap)
      modifies this`gets, this`ticks, this`polls, this`classified, this`pendingAO, store
      ensures ScanInv(store.db)
      ensures ok ==> Shrinks(old(store.db), store.db) && SameStops(old(store.db), store.db)
      ensures old(pendingAO) ==> pendingAO
      ensures ok && Steady() ==> QuietBut(store.db, owned, true, ao(0), handoff(0), {})
      ensures ok && Steady() && QuietBut(old(store.db), owned, false, ao(0), handoff(0), {}) ==> QuietBut(store.db, owned, false, ao(0), handoff(0), {})
      ensures Steady() && Settled(snap, ao(0), handoff(0), clock(0)) && SameTables(snap, old(store.db)) ==> SameTables(old(store.db), store.db)
      ensures NeverCancelled() && SagaInv(snap) && SurelyExecutions(snap, owned, true) ==> ok
      ensures ok ==> classified == old(classified) + |Candidates(snap, owned, true)|
      ensures Steady() && ok ==> ExecutionsPass(snap, owned, true) && ExecutionsJudged(snap, store.db, owned, true)
      ensures ok ==> CandidatesSame(old(store.db), store.db, owned, {false})
    {
      hide ExecutionsJudged, AllJudged, ScanInv, Shrinks, Settled, SurelyExecutions, ExecutionsPass, SurelyAll, Passed, CandidatesSame, BlockedKept;
      hide SagaInv, LeavesLess, OwnersKept, StrandedKept, StagesKept, RuntimesKept, Candidates, CountIn;
      hide AllLive, Ops, Candidate, QuietBut, SnapshotInconsistent, StopOwnedAttempts, SendLeft;
      ghost var stops := store.db;
      Unmoved(snap, stops);
      if SagaInv(stops) { SnapshotReadable(stops); }
      if SnapshotInconsistent(store.db) { return false; }
      var latest := Executions();
      if Settled(snap, ao(0), handoff(0), clock(0)) && SameTables(snap, stops) { SettledQuiet(snap, stops, ao(0), handoff(0), clock(0)); }
      OwnedShrinks(snap, stops);
      SameAsked(snap, stops, owned, true);
      RowsAsked(stops, latest, owned, true);
      CountsCandidates(stops, latest, owned, true);
      SameCandidates(snap, stops, owned, true);
      ok := ClassifyExecutions(latest, owned, true);
      if ok && Steady() {
        RowsJudged(stops, store.db, latest, owned, true);
        SameJudged(snap, stops, store.db, owned, true);
      }
    }

    /** Whatever is asked, and whenever, gets an answer that passes. */
    ghost predicate SurelyPasses(db: DB) { forall k: nat, j: nat, i: nat :: SweepPasses(db, ao(k), handoff(j), clock(i)) }

    /** The answers a sweep is given, seen from its parts. */
    lemma PassesAsked(boot: DB, snap: DB, owned: set<Id>)
      requires SameTables(boot, snap) && owned == StopOwnedAttempts(snap)
      ensures SurelyPasses(boot) ==>
                SurelyStops(snap) && SurelyExecutions(snap, owned, false) && SurelyExecutions(snap, owned, true)
      ensures ExecutionsPass(snap, owned, false) && ExecutionsPass(snap, owned, true) && StopsPass(snap) ==> SweepPasses(boot, ao(0), handoff(0), clock(0))
    {
      hide ExecutionPasses, StopPasses, SameTables, StopOwnedAttempts, CurrentOpen;
      forall k: nat, j: nat, i: nat ensures SweepPasses(boot, ao(k), handoff(j), clock(i)) <==> SweepPasses(snap, ao(k), handoff(j), clock(i)) {
        PassesIgnoresLog(boot, snap, ao(k), handoff(j), clock(i));
      }
      if SurelyPasses(boot) {
        forall o, k: nat, i: nat | StopLeft(snap, o) ensures StopPasses(snap, o, ao(k)(snap.stops[o].target.session), clock(i)) {
          assert SweepPasses(snap, ao(k), handoff(0), clock(i));
        }
        forall d, confirmed | Candidate(snap, d, owned, confirmed) ensures Surely(ExecutionOf(snap, d)) {
          forall k: nat, j: nat ensures ExecutionPasses(ExecutionOf(snap, d), ao(k)(ExecutionOf(snap, d).session), handoff(j)(d)) {
            assert SweepPasses(snap, ao(k), handoff(j), clock(0));
          }
        }
      }
    }

    lemma Rests(snap: DB, stops: DB, observed: DB, e: DB)
      requires Shrinks(snap, stops) && Shrinks(stops, observed) && SameStops(stops, observed) && SameTables(observed, e)
      requires (forall r :: !RestoreLeft(observed, r)) && (forall p :: !ProvisionLeft(observed, p)) && (forall a :: !BlockedLeft(observed, a))
      requires QuietBut(observed, StopOwnedAttempts(snap), false, ao(0), handoff(0), {}) && QuietBut(observed, StopOwnedAttempts(snap), true, ao(0), handoff(0), {})
      requires StopsWait(stops, ao(0), clock(0))
      ensures Settled(e, ao(0), handoff(0), clock(0))
    {
      hide Shrinks, QuietBut, StopsWait, Settled, RestoreLeft, ProvisionLeft, BlockedLeft, StopOwnedAttempts;
      ShrinksTwice(snap, stops, observed);
      WaitCarries(stops, observed, ao(0), clock(0));
      AtRest(snap, observed, ao(0), handoff(0), clock(0));
      SettledIgnoresLog(observed, e, ao(0), handoff(0), clock(0));
    }

    /** Everything a snapshot lists, in the order of its lists. */
    method ClassifySnapshot(snap: DB) returns (ok: bool)
      requires ScanInv(store.db) && snap == store.db
      modifies this`gets, this`ticks, this`polls, this`classified, this`pendingAO, store
      ensures ScanInv(store.db)
      ensures ok ==>
        && (forall r :: !RestoreLeft(store.db, r)) && (forall p :: !ProvisionLeft(store.db, p))
        && (forall d :: !SendLeft(store.db, d)) && (forall a :: !BlockedLeft(store.db, a))
        && (!pendingAO ==> forall o :: !StopLeft(store.db, o))
        && (forall o :: !OverdueNow(snap, o))
        && classified == old(classified) + Backlog(snap)
      ensures (NeverCancelled() && SagaInv(snap) && SurelyStops(snap)
               && SurelyExecutions(snap, StopOwnedAttempts(snap), false) && SurelyExecutions(snap, StopOwnedAttempts(snap), true)) ==> ok
      ensures Steady() && ok ==>
        && StopsPass(snap)
        && ExecutionsPass(snap, StopOwnedAttempts(snap), false) && ExecutionsPass(snap, StopOwnedAttempts(snap), true)
        && Settled(store.db, ao(0), handoff(0), clock(0))
        && Verdicts(snap, store.db)
      ensures ok ==> LeftDecided(snap, store.db)
      ensures Steady() && Settled(snap, ao(0), handoff(0), clock(0)) ==> SameTables(snap, store.db)
    {
      hide Verdicts, ExecutionsJudged, StopsJudged, DecisionsKept, LeftDecided, CandidatesSame, ScanInv, SagaInv, Shrinks, Settled, SurelyStops, SurelyExecutions, ExecutionsPass, StopsPass, CandidatesSame, BlockedKept;
      hide Candidate, StopsWait, QuietBut, StopOwnedAttempts, RestoreLeft, ProvisionLeft, SendLeft, BlockedLeft, StopLeft, OverdueNow;
      hide StrandedKept, StagesKept, RuntimesKept, OwnersKept, InFlightRestores, UnansweredProvisions, InFlightStops, BlockedAttempts, Candidates;
      var owned := StopOwnedAttempts(snap);
      ok := ClassifyIntents(snap, owned);
      if !ok { return; }
      ghost var intents := store.db;
      ok := ClassifyOwned(snap, owned);
      if !ok { return; }
      ghost var stops := store.db;
      Unmoved(intents, stops);
      ShrinksTwice(snap, intents, stops);
      CandidatesFewer(intents, stops, owned, {true, false}, {true});
      CandidatesSameTwice(snap, intents, stops, owned, {true});
      ok := ClassifySent(snap, owned);
      if !ok { return; }
      Unmoved(stops, store.db);
      ShrinksTwice(snap, stops, store.db);
      Unmoved(snap, store.db);
      if Steady() {
        Rests(snap, stops, store.db, store.db);
        VerdictsMeet(snap, intents, stops, store.db);
      }
    }

    /** The verdicts of the three phases, at the end of the sweep. */
    lemma VerdictsMeet(snap: DB, intents: DB, stops: DB, e: DB)
      requires DecisionsKept(intents, stops) && DecisionsKept(stops, e) && SameStops(stops, e)
      requires ExecutionsJudged(snap, intents, StopOwnedAttempts(snap), false) && CandidatesSame(intents, stops, StopOwnedAttempts(snap), {true, false})
      requires StopsJudged(snap, stops) && CandidatesSame(stops, e, StopOwnedAttempts(snap), {false})
      requires ExecutionsJudged(snap, e, StopOwnedAttempts(snap), true)
      ensures Verdicts(snap, e)
    {
      hide DecisionsKept, ExecutionsJudged, CandidatesSame, StopsJudged, StopOwnedAttempts;
      var owned := StopOwnedAttempts(snap);
      CandidatesFewer(intents, stops, owned, {true, false}, {false});
      JudgedCarries(snap, intents, stops, owned);
      JudgedCarries(snap, stops, e, owned);
      StopsShown(snap, snap, stops, e);
    }

    /** Whatever a sweep has classified shows the verdict of its answer. */
    ghost predicate Verdicts(boot: DB, db: DB) {
      && ExecutionsJudged(boot, db, StopOwnedAttempts(boot), false) && ExecutionsJudged(boot, db, StopOwnedAttempts(boot), true)
      && StopsJudged(boot, db)
    }

    /** With no other writer a complete sweep leaves no unanswered provisioning, restore or send
        intent and no blocked attempt open; if AO answered for every stop, none is in flight.
        When AO keeps giving the same answers, a second sweep changes nothing but the log. */
    method Run()
      requires ScanInv(store.db)
      modifies this, store
      ensures ScanInv(store.db)
      ensures complete ==>
        && (forall r :: !RestoreLeft(store.db, r)) && (forall p :: !ProvisionLeft(store.db, p))
        && (forall d :: !SendLeft(store.db, d)) && (forall a :: !BlockedLeft(store.db, a))
      ensures complete && !pendingAO ==> forall o :: !StopLeft(store.db, o)
      ensures complete ==> classified == Backlog(old(store.db))
      // after production steps it completes when every answer passes; under steady answers only then
      ensures SagaInv(old(store.db)) && NeverCancelled() && SurelyPasses(old(store.db)) ==> complete
      ensures Steady() && complete ==> SweepPasses(old(store.db), ao(0), handoff(0), clock(0))
      // what was classified is decided: by rule for the intents of a crash, by AO's answer for the rest
      ensures complete ==> LeftDecided(old(store.db), store.db)
      ensures Steady() && complete ==> Verdicts(old(store.db), store.db)
      // a stranded stop whose deadline has passed keeps every sweep from completing
      ensures (exists o :: OverdueNow(old(store.db), o)) ==> !complete
      ensures Steady() && complete ==> Settled(store.db, ao(0), handoff(0), clock(0))
      ensures Steady() && Settled(old(store.db), ao(0), handoff(0), clock(0)) ==> SameTables(old(store.db), store.db)
    {
      hide Verdicts, LeftDecided, DecisionsKept, ScanInv, SagaInv, Shrinks, Settled, SweepPasses, SurelyPasses, SurelyStops, SurelyExecutions, ExecutionsPass, StopsPass, SameTables;
      hide SnapshotInconsistent, Unbudgeted, RestoreLeft, ProvisionLeft, SendLeft, BlockedLeft, StopLeft, OverdueNow, Backlog, StrandedKept, StagesKept, RuntimesKept, OwnersKept;
      complete, pendingAO, classified := false, false, 0;
      ghost var boot := store.db;
      Note(SweepStartedNote);
      var snap := store.db;
      Booted(boot, snap);
      if Settled(boot, ao(0), handoff(0), clock(0)) { SettledIgnoresLog(boot, snap, ao(0), handoff(0), clock(0)); }
      if SagaInv(snap) { SnapshotReadable(snap); }
      if SnapshotInconsistent(snap) { return; }
      PassesAsked(boot, snap, StopOwnedAttempts(snap));
      var ok := ClassifySnapshot(snap);
      ghost var observed := store.db;
      if SameTables(snap, observed) { SameTablesTwice(boot, snap, observed); }
      if !ok { return; }
      var stopped := Interrupted();
      if stopped { return; }
      forall d ensures !Unbudgeted(observed, d) { NothingUnbudgeted(observed, d); }
      if exists d | d in store.db.dispatches :: Unbudgeted(store.db, d) { return; }
      Note(SweepCompletedNote);
      Unmoved(observed, store.db);
      if SameTables(boot, observed) { SameTablesTwice(boot, observed, store.db); }
      if Steady() {
        SettledIgnoresLog(observed, store.db, ao(0), handoff(0), clock(0));
        VerdictsIgnoreLog(boot, snap, observed, store.db);
      }
      DecidedIgnoresLog(boot, snap, observed, store.db);
      complete := true;
    }

    lemma DecidedIgnoresLog(boot: DB, snap: DB, db: DB, e: DB)
      requires SameTables(boot, snap) && LeftDecided(snap, db) && SameTables(db, e)
      ensures LeftDecided(boot, e)
    {}

    lemma VerdictsIgnoreLog(boot: DB, snap: DB, db: DB, e: DB)
      requires SameTables(boot, snap) && Verdicts(snap, db) && SameTables(db, e)
      ensures Verdicts(boot, e)
    {
      hide VerdictOf;
      forall o | StopLeft(boot, o) ensures StopShows(boot, e, o) { assert StopLeft(snap, o) && StopShows(snap, db, o); }
    }

    lemma SameTablesTwice(a: DB, b: DB, c: DB)
      requires SameTables(a, b) && SameTables(b, c)
      ensures SameTables(a, c)
    {}

    lemma Booted(boot: DB, snap: DB)
      requires SameTables(boot, snap) && Shrinks(boot, snap)
      ensures SagaInv(boot) ==> SagaInv(snap)
      ensures Backlog(snap) == Backlog(boot)
      ensures forall o :: OverdueNow(boot, o) ==> OverdueNow(snap, o)
    {
      hide SagaInv, OverdueNow, Backlog, LeavesLess, OwnersKept, StagesKept, RuntimesKept;
      SameBacklog(boot, snap);
      OverdueRemains(boot, snap);
    }

    /** The execution rows of ListRecoverySnapshot. */
    method Executions() returns (xs: seq<Execution>)
      requires ScanInv(store.db)
      ensures forall k | k in store.db.dispatches && InSnapshot(store.db, k) :: ExecutionOf(store.db, k) in xs
      ensures AllLive(store.db, xs)
      ensures forall d, owned, confirmed :: Candidate(store.db, d, owned, confirmed) ==> d in Ops(xs)
    {
      hide ScanInv, Candidate, AllLive, Ops, ExecutionRows;
      var ops := Listed(set d | d in store.db.dispatches && InSnapshot(store.db, d));
      forall i | 0 <= i < |ops| ensures InSnapshot(store.db, ops[i]) { assert ops[i] in ops; }
      xs := ExecutionRows(store.db, ops);
      SnapshotRows(store.db, ops, xs);
      CandidatesInSnapshot(store.db);
    }

    /** RecordRecoverySweepEvent. */
    method Note(kind: NoteKind)
      requires ScanInv(store.db)
      modifies store
      ensures ScanInv(store.db) && Shrinks(old(store.db), store.db) && SameTables(old(store.db), store.db)
    {
      hide ScanInv, Shrinks;
      ScanStep(store.db, PairStep(AppendAudit(Domain.Note(kind, 0))));
      store.db := store.db.(log := store.db.log + [Domain.Note(kind, 0)]);
    }
  }
}
