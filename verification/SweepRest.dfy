/** What a recovery sweep leaves alone: the candidates whose classification, under the same AO
    answers and the same clock, writes no table. */
module SweepRest {
  import opened Domain
  import opened Tables
  import opened DispatchTransactions
  import opened ProvisioningTransactions
  import opened RecoveryTransactions
  import opened RestoreTransactions
  import opened StopTransactions
  import opened Invariants
  import opened Steps
  import opened ScanSteps
  import opened RowEffects

  /** What AO said to a status GET. */
  datatype Answer =
    | AoNotFound | AoProtocolError | AoUnavailable | AoEmpty
    | AoStatus(session: Id, gen: Id, activity: Activity, terminated: bool)

  /** Everything but the audit log. */
  predicate SameTables(db: DB, e: DB) { e == db.(log := e.log) }

  // --- executions -----------------------------------------------------------------------

  predicate Live(db: DB, x: Execution) { HasExecution(db, x.op) && ExecutionOf(db, x.op) == x }

  predicate SameExecution(db: DB, e: DB, d: Id) {
    && (HasExecution(e, d) <==> HasExecution(db, d))
    && (HasExecution(db, d) && HasExecution(e, d) ==> ExecutionOf(e, d) == ExecutionOf(db, d))
  }

  ghost predicate ExecutionsSame(db: DB, e: DB) { forall d :: SameExecution(db, e, d) }

  ghost predicate OthersSame(db: DB, e: DB, op: Id) { forall d :: d != op ==> SameExecution(db, e, d) }

  /** The handoff dependency is asked only about an idle worker of a DISPATCHED task. */
  predicate HandoffAsked(x: Execution, answer: Answer) {
    && answer.AoStatus? && x.state.Dispatched? && answer.session == x.session && answer.gen == x.gen
    && !answer.terminated && answer.activity.ActivityIdle?
  }

  function SeenOf(x: Execution, answer: Answer, available: Option<bool>): PostSend
    requires answer.AoNotFound? || answer.AoStatus?
  {
    if answer.AoNotFound? then AbsentRuntime(x.session)
    else LiveRuntime(answer.session, answer.gen, answer.activity, answer.terminated, HandoffAsked(x, answer) && available == Some(true))
  }

  predicate ObserveQuiet(x: Execution, seen: PostSend) {
    && TerminalDisposition(x, seen).None? && x.disposition != Some(RecoveryPending)
    && (x.disposition.None? ==> ObservedState(x, seen) == x.state && LiveDisposition(x, seen).None?)
  }

  predicate PreSendQuiet(x: Execution, answer: Answer) {
    match answer
    case AoProtocolError => x.disposition == Some(PreSendProtocolUnverified)
    case AoUnavailable => x.disposition.Some?
    case AoStatus(session, gen, activity, terminated) =>
      && session == x.session && gen == x.gen && !terminated
      && (activity.ActivityIdle? || activity.ActivityWaitingInput? ==> x.disposition != Some(RecoveryPending))
    case _ => false
  }

  predicate PostSendQuiet(x: Execution, answer: Answer, available: Option<bool>) {
    match answer
    case AoUnavailable => x.disposition.Some?
    case AoStatus(_, _, _, _) => ObserveQuiet(x, SeenOf(x, answer, available))
    case _ => false
  }

  predicate Quiet(x: Execution, answer: Answer, available: Option<bool>) {
    match x.stage
    case DispatchBound => PreSendQuiet(x, answer)
    case SendRequested => false
    case SendConfirmed => PostSendQuiet(x, answer, available)
  }

  // --- what a statement of the sweep makes of an execution ---------------------------------

  predicate About(s: Step, x: Execution) {
    match s
    case DispatchStep(Hold(op, _)) => op == x.op
    case DispatchStep(Reject(op, _)) => op == x.op
    case DispatchStep(ResolveHold(op, _, _, _, _, _, _)) => op == x.op
    case DispatchStep(UnknownDelivery(op, _)) => op == x.op
    case ExecutionStep(Terminal(task, _, attempt, _, _)) => task == x.task && attempt == x.attempt
    case ExecutionStep(RecordOutage(y)) => y == x
    case ExecutionStep(Observe(y, _, _)) => y == x
    case _ => false
  }

  /** The execution after the statement, if it is still open. */
  function Next(s: Step, x: Execution): Option<Execution>
    requires About(s, x)
  {
    match s
    case DispatchStep(Hold(_, hold)) => Some(x.(disposition := Some(hold)))
    case DispatchStep(Reject(_, _)) => Some(x)
    case DispatchStep(ResolveHold(_, _, _, _, _, _, _)) => Some(x.(disposition := None))
    case DispatchStep(UnknownDelivery(_, _)) => None
    case ExecutionStep(Terminal(_, _, _, _, _)) => None
    case ExecutionStep(RecordOutage(_)) => Some(x.(disposition := Some(RecoveryPending)))
    case ExecutionStep(Observe(_, seen, _)) =>
      if TerminalDisposition(x, seen).Some? then None
      else if ObserveIgnored(x, seen) then Some(x)
      else Some(x.(state := ObservedState(x, seen),
                   disposition := if x.disposition == Some(RecoveryPending) || LiveDisposition(x, seen).Some?
                                  then LiveDisposition(x, seen) else x.disposition))
  }

  predicate NextIs(db: DB, op: Id, x: Option<Execution>) {
    match x
    case None => !HasExecution(db, op)
    case Some(y) => HasExecution(db, op) && ExecutionOf(db, op) == y
  }

  /** The rows of one execution: its task, attempt and operation. */
  predicate TouchesOnly(db: DB, e: DB, d: Id) {
    && d in db.dispatches
    && var b := db.dispatches[d].bound;
    && e.tasks.Keys == db.tasks.Keys && (forall t | t in db.tasks :: e.tasks[t] == db.tasks[t] || (t == b.task && e.tasks[t].current == db.tasks[t].current))
    && e.attempts.Keys == db.attempts.Keys
    && (forall a | a in db.attempts :: e.attempts[a] == db.attempts[a] || (a == b.attempt && e.attempts[a].lineage == db.attempts[a].lineage))
    && e.dispatches.Keys == db.dispatches.Keys && (forall k | k in db.dispatches && k != d :: e.dispatches[k] == db.dispatches[k])
    && SameStops(db, e)
  }

  lemma OneExecution(db: DB, e: DB, d: Id)
    requires HasExecution(db, d) && TouchesOnly(db, e, d)
    requires DispatchRefs(db.tasks, db.attempts, db.dispatches) && NumbersUnique(db.attempts)
    ensures OthersSame(db, e, d) && SameStops(db, e)
  {
    forall k | k != d ensures SameExecution(db, e, k) {
      if k in db.dispatches {
        assert db.dispatches[k].bound.attempt != db.dispatches[d].bound.attempt;
      }
    }
  }

  lemma DispatchReacts(db: DB, s: DispatchOp, x: Execution)
    requires Live(db, x) && DispatchAllowed(db, s) && About(DispatchStep(s), x)
    ensures TouchesOnly(db, DispatchEffect(db, s), x.op)
    ensures NextIs(DispatchEffect(db, s), x.op, Next(DispatchStep(s), x))
  {}

  lemma ObserveReacts(db: DB, x: Execution, seen: PostSend, at: Time)
    requires Live(db, x) && ObserveAdmits(db, x, seen)
    ensures TouchesOnly(db, ObserveCommit(db, x, seen, at), x.op)
    ensures NextIs(ObserveCommit(db, x, seen, at), x.op, Next(ExecutionStep(Observe(x, seen, at)), x))
  {
    hide TerminalDisposition, LiveDisposition, ObservedState, StopOwned, AuditLineage;
  }

  lemma ExecutionReacts(db: DB, s: ExecutionOp, x: Execution)
    requires Live(db, x) && ExecutionAllowed(db, s) && About(ExecutionStep(s), x)
    ensures TouchesOnly(db, ExecutionEffect(db, s), x.op)
    ensures NextIs(ExecutionEffect(db, s), x.op, Next(ExecutionStep(s), x))
  {
    if s.Observe? {
      hide ObserveAdmits, TouchesOnly, NextIs, Next, ObserveCommit;
      ObserveReacts(db, x, s.seen, s.at);
    }
  }

  /** A statement about an execution changes that execution as Next says and no other. */
  lemma Reacts(db: DB, s: Step, x: Execution)
    requires ScanInv(db) && Live(db, x) && Allowed(db, s) && About(s, x)
    ensures OthersSame(db, Effect(db, s), x.op) && NextIs(Effect(db, s), x.op, Next(s, x)) && SameStops(db, Effect(db, s))
  {
    hide OthersSame, NextIs, Next, Live, Inv, LiveStopsLater, TargetsCurrent;
    hide TaskAllowed, PairAllowed, DispatchAllowed, ExecutionAllowed, StopAllowed, RestoreAllowed;
    hide TaskEffect, PairEffect, DispatchEffect, ExecutionEffect, StopEffect, RestoreEffect;
    match s
    case DispatchStep(t) => DispatchReacts(db, t, x); Alone(db, Effect(db, s), x);
    case ExecutionStep(t) => ExecutionReacts(db, t, x); Alone(db, Effect(db, s), x);
  }

  lemma Alone(db: DB, e: DB, x: Execution)
    requires ScanInv(db) && Live(db, x) && TouchesOnly(db, e, x.op)
    ensures OthersSame(db, e, x.op) && SameStops(db, e)
  {
    hide LiveStopsLater, TargetsCurrent, Inv, TouchesOnly, OthersSame;
    AttemptNumbersUnique(db);
    OneExecution(db, e, x.op);
  }

  lemma AttemptNumbersUnique(db: DB)
    requires Inv(db)
    ensures NumbersUnique(db.attempts) && DispatchRefs(db.tasks, db.attempts, db.dispatches)
  {}

  /** Whatever an observation leaves open is quiet under the same answer. */
  lemma ObservedIsQuiet(x: Execution, answer: Answer, available: Option<bool>, at: Time)
    requires x.stage.SendConfirmed? && (x.state.Dispatched? || x.state.Running?)
    requires answer.AoNotFound? || answer.AoStatus?
    ensures var y := Next(ExecutionStep(Observe(x, SeenOf(x, answer, available), at)), x);
      y.Some? ==> Quiet(y.value, answer, available)
  {}

  lemma ObservedVerdict(x: Execution, answer: Answer, available: Option<bool>, at: Time)
    requires x.stage.SendConfirmed? && (x.state.Dispatched? || x.state.Running?)
    requires answer.AoNotFound? || answer.AoStatus?
    ensures Decides(ExecutionStep(Observe(x, SeenOf(x, answer, available), at)), x) == VerdictOf(x, answer, available)
      || (answer.AoStatus? && answer.session != x.session)
  {}

  /** A quiet observation rewrites the rows it finds. */
  lemma QuietObservation(db: DB, x: Execution, seen: PostSend, at: Time)
    requires ObserveAdmits(db, x, seen) && ObserveQuiet(x, seen)
    ensures SameTables(db, ObserveCommit(db, x, seen, at))
  {
    var e := ObserveCommit(db, x, seen, at);
    assert e.tasks == db.tasks && e.attempts == db.attempts && e.sessions == db.sessions;
  }

  /** A live execution is not one that another writer has moved. */
  lemma LiveNotMoved(db: DB, x: Execution)
    requires ScanInv(db) && Live(db, x)
    ensures !ExecutionMoved(db, x)
  {
    hide LiveStopsLater, TargetsCurrent;
    assert DispatchRefs(db.tasks, db.attempts, db.dispatches);
  }

  // --- verdicts ---------------------------------------------------------------------------------

  /** What becomes of an execution: its attempt is closed for a reason, or stays open in a state,
      under a mark. */
  datatype Verdict = Ended(why: Disposition) | Open(state: TaskState, mark: Option<Disposition>)

  /** The verdict that an answer calls for. */
  function VerdictOf(x: Execution, answer: Answer, available: Option<bool>): Verdict {
    var waits := Open(x.state, if x.disposition == None then Some(RecoveryPending) else x.disposition);
    match x.stage
    case SendRequested => Ended(UncertainDeliveryCrash)
    case DispatchBound =>
      (match answer
       case AoNotFound => Ended(SessionAbsent)
       case AoProtocolError => Open(x.state, Some(PreSendProtocolUnverified))
       case AoUnavailable => waits
       case AoEmpty => Open(x.state, x.disposition)
       case AoStatus(session, gen, activity, terminated) =>
         if session != x.session then Ended(PreSendIdentityMismatch)
         else if gen != x.gen then Ended(StaleExecutionGeneration)
         else if terminated then Ended(WorkerTerminationUnknown)
         else if activity in {ActivityIdle, ActivityWaitingInput} && x.disposition == Some(RecoveryPending) then Open(x.state, None)
         else Open(x.state, x.disposition))
    case SendConfirmed =>
      match answer
      case AoNotFound => Ended(SessionAbsent)
      case AoUnavailable => waits
      case AoStatus(_, gen, activity, terminated) =>
        if gen != x.gen then Ended(StaleExecutionGeneration)
        else if terminated then Ended(WorkerTerminationUnknown)
        else if x.state == Dispatched && activity == ActivityIdle && available != Some(true) then Ended(MissedActiveWindow)
        else if x.disposition != None && x.disposition != Some(RecoveryPending) then Open(x.state, x.disposition)
        else
          (match activity
           case ActivityActive => Open(Running, None)
           case ActivityWaitingInput => Open(Running, Some(AoWaitingInputObserved))
           case ActivityBlocked => Open(Running, Some(AoBlockedDecision))
           case ActivityIdle => Open(Running, if x.state == Dispatched then Some(MissedActiveWindow) else None)
           case ActivityExited => Open(x.state, None))
      case _ => Open(x.state, x.disposition)
  }

  /** The rows show the verdict. */
  predicate Judged(db: DB, x: Execution, v: Verdict) {
    match v
    case Ended(why) => x.attempt in db.attempts && db.attempts[x.attempt].ended.Some? && db.attempts[x.attempt].disposition == Some(why)
    case Open(state, mark) => Live(db, x.(state := state, disposition := mark))
  }

  /** The verdict a statement carries out. */
  function Decides(s: Step, x: Execution): Verdict
    requires About(s, x)
  {
    match Next(s, x)
    case Some(y) => Open(y.state, y.disposition)
    case None =>
      match s
      case DispatchStep(_) => Ended(UncertainDeliveryCrash)
      case ExecutionStep(Terminal(_, _, _, why, _)) => Ended(why)
      case ExecutionStep(Observe(_, seen, _)) => if TerminalDisposition(x, seen).Some? then Ended(TerminalDisposition(x, seen).value) else Open(x.state, x.disposition)
      case _ => Open(x.state, x.disposition)
  }

  lemma Judges(db: DB, s: Step, x: Execution)
    requires ScanInv(db) && Live(db, x) && Allowed(db, s) && About(s, x)
    ensures Judged(Effect(db, s), x, Decides(s, x))
  {
    hide ScanInv, Allowed, Effect, LineageRows, PairRows, OperationRows, LogAfter;
    Reacts(db, s, x);
    StepRows(db, s);
    if Next(s, x).None? {
      AttemptRow(db, s, Effect(db, s), x.attempt);
    }
  }

  lemma AttemptRow(db: DB, s: Step, e: DB, a: Id)
    requires Rowwise(db, s, e)
    ensures Row(e.attempts, a) == AttemptAfter(db, s, a)
  {}

  // --- sets of executions ----------------------------------------------------------------------

  /** A candidate of one send phase that no live stop owns. */
  predicate Candidate(db: DB, d: Id, owned: set<Id>, confirmed: bool) {
    && HasExecution(db, d)
    && var x := ExecutionOf(db, d);
    && (x.state.Dispatched? || (x.state.Running? && x.stage.SendConfirmed?))
    && x.attempt !in owned && x.stage.SendConfirmed? == confirmed
  }

  /** Outside rest, every candidate is quiet. */
  ghost predicate QuietBut(db: DB, owned: set<Id>, confirmed: bool, ao: Id -> Answer, handoff: Id -> Option<bool>, rest: set<Id>) {
    forall d :: d !in rest && Candidate(db, d, owned, confirmed) ==> Quiet(ExecutionOf(db, d), ao(ExecutionOf(db, d).session), handoff(d))
  }

  ghost predicate Reacted(db: DB, e: DB, x: Execution, answer: Answer, available: Option<bool>) {
    && OthersSame(db, e, x.op)
    && (HasExecution(e, x.op) ==> ExecutionOf(e, x.op).session == x.session && Quiet(ExecutionOf(e, x.op), answer, available))
  }

  lemma QuietGrows(db: DB, e: DB, x: Execution, owned: set<Id>, confirmed: bool, ao: Id -> Answer, handoff: Id -> Option<bool>, rest: set<Id>)
    requires QuietBut(db, owned, confirmed, ao, handoff, rest + {x.op}) && Reacted(db, e, x, ao(x.session), handoff(x.op))
    ensures QuietBut(e, owned, confirmed, ao, handoff, rest)
  {
    forall d | d !in rest && Candidate(e, d, owned, confirmed)
      ensures Quiet(ExecutionOf(e, d), ao(ExecutionOf(e, d).session), handoff(d))
    {
      if d != x.op { assert SameExecution(db, e, d); }
    }
  }

  lemma QuietFewer(db: DB, owned: set<Id>, confirmed: bool, ao: Id -> Answer, handoff: Id -> Option<bool>, few: set<Id>, more: set<Id>)
    requires QuietBut(db, owned, confirmed, ao, handoff, few) && few <= more
    ensures QuietBut(db, owned, confirmed, ao, handoff, more)
  {}

  lemma ExecutionsSameTwice(a: DB, b: DB, c: DB)
    requires ExecutionsSame(a, b) && ExecutionsSame(b, c)
    ensures ExecutionsSame(a, c)
  {
    forall d ensures SameExecution(a, c, d) {
      assert SameExecution(a, b, d) && SameExecution(b, c, d);
    }
  }

  lemma InterruptedExecutions(db: DB, r: Id)
    requires InterruptedAdmits(db, r)
    ensures ExecutionsSame(db, InterruptedCommit(db, r)) && SameStops(db, InterruptedCommit(db, r))
    ensures RestoreLeft(db, r) && !RestoreLeft(InterruptedCommit(db, r), r)
  {}

  lemma FailedExecutions(db: DB, p: Id)
    requires FailProvisionAdmits(db, p)
    ensures ExecutionsSame(db, FailProvisionCommit(db, p)) && SameStops(db, FailProvisionCommit(db, p))
    ensures ProvisionLeft(db, p) && !ProvisionLeft(FailProvisionCommit(db, p), p)
  {}

  // --- a list of executions still to be classified -------------------------------------------------

  function Ops(xs: seq<Execution>): set<Id> { set i | 0 <= i < |xs| :: xs[i].op }

  predicate AllLive(db: DB, xs: seq<Execution>) {
    && (forall i | 0 <= i < |xs| :: Live(db, xs[i]) && (xs[i].state.Dispatched? || (xs[i].state.Running? && xs[i].stage.SendConfirmed?)))
    && forall i, j | 0 <= i < j < |xs| :: xs[i].op != xs[j].op
  }

  lemma CandidatesInSnapshot(db: DB)
    requires ScanInv(db)
    ensures forall d, owned, confirmed :: Candidate(db, d, owned, confirmed) ==> InSnapshot(db, d)
  {
    hide Inv, LiveStopsLater, TargetsCurrent;
    AttemptNumbersUnique(db);
  }

  /** The rows of a snapshot are live, and every candidate is among them. */
  lemma SnapshotRows(db: DB, ops: seq<Id>, xs: seq<Execution>)
    requires (forall i | 0 <= i < |ops| :: InSnapshot(db, ops[i])) && xs == ExecutionRows(db, ops)
    requires forall i, j | 0 <= i < j < |ops| :: ops[i] != ops[j]
    requires forall k | k in db.dispatches && InSnapshot(db, k) :: k in ops
    ensures AllLive(db, xs)
    ensures forall k | k in db.dispatches && InSnapshot(db, k) :: ExecutionOf(db, k) in xs && k in Ops(xs)
  {
    forall k | k in db.dispatches && InSnapshot(db, k) ensures ExecutionOf(db, k) in xs && k in Ops(xs) {
      var i :| 0 <= i < |ops| && ops[i] == k;
      assert xs[i] == ExecutionOf(db, k);
    }
  }

  lemma OpsOf(xs: seq<Execution>)
    requires |xs| > 0
    ensures Ops(xs) == Ops(xs[1..]) + {xs[0].op}
  {
    forall d | d in Ops(xs) ensures d in Ops(xs[1..]) + {xs[0].op} {
      var i :| 0 <= i < |xs| && xs[i].op == d;
      if i > 0 { assert xs[1..][i - 1] == xs[i]; }
    }
  }

  lemma RestLive(db: DB, e: DB, xs: seq<Execution>)
    requires |xs| > 0 && AllLive(db, xs) && OthersSame(db, e, xs[0].op)
    ensures AllLive(e, xs[1..])
  {
    forall i | 0 <= i < |xs[1..]| ensures Live(e, xs[1..][i]) {
      assert SameExecution(db, e, xs[i + 1].op);
    }
  }

  lemma LiveStays(db: DB, e: DB, xs: seq<Execution>)
    requires AllLive(db, xs) && ExecutionsSame(db, e)
    ensures AllLive(e, xs)
  {
    forall i | 0 <= i < |xs| ensures Live(e, xs[i]) { assert SameExecution(db, e, xs[i].op); }
  }

  lemma StillListed(db: DB, e: DB, xs: seq<Execution>, owned: set<Id>, confirmed: bool)
    requires ExecutionsSame(db, e) && forall d :: Candidate(db, d, owned, confirmed) ==> d in Ops(xs)
    ensures forall d :: Candidate(e, d, owned, confirmed) ==> d in Ops(xs)
  {
    hide Ops;
    forall d | Candidate(e, d, owned, confirmed) ensures d in Ops(xs) {
      assert SameExecution(db, e, d) && Candidate(db, d, owned, confirmed);
    }
  }

  /** The first of the remaining executions has been classified. */
  lemma Classified(db: DB, e: DB, xs: seq<Execution>, owned: set<Id>, confirmed: bool, ao: Id -> Answer, handoff: Id -> Option<bool>)
    requires |xs| > 0 && Reacted(db, e, xs[0], ao(xs[0].session), handoff(xs[0].op))
    ensures QuietBut(db, owned, confirmed, ao, handoff, Ops(xs)) ==> QuietBut(e, owned, confirmed, ao, handoff, Ops(xs[1..]))
    ensures QuietBut(db, owned, !confirmed, ao, handoff, {}) ==> QuietBut(e, owned, !confirmed, ao, handoff, {})
  {
    hide Reacted, QuietBut;
    OpsOf(xs);
    if QuietBut(db, owned, confirmed, ao, handoff, Ops(xs)) { QuietGrows(db, e, xs[0], owned, confirmed, ao, handoff, Ops(xs[1..])); }
    if QuietBut(db, owned, !confirmed, ao, handoff, {}) {
      QuietFewer(db, owned, !confirmed, ao, handoff, {}, {} + {xs[0].op});
      QuietGrows(db, e, xs[0], owned, !confirmed, ao, handoff, {});
    }
  }

  /** The first of the remaining executions belongs to a live stop or to the other phase. */
  lemma Skipped(db: DB, xs: seq<Execution>, owned: set<Id>, confirmed: bool, ao: Id -> Answer, handoff: Id -> Option<bool>)
    requires |xs| > 0 && AllLive(db, xs) && (xs[0].attempt in owned || xs[0].stage.SendConfirmed? != confirmed)
    requires QuietBut(db, owned, confirmed, ao, handoff, Ops(xs))
    ensures QuietBut(db, owned, confirmed, ao, handoff, Ops(xs[1..]))
  {
    OpsOf(xs);
    assert Live(db, xs[0]);
  }

  /** A quiet database has quiet executions. */
  lemma QuietOne(db: DB, e: DB, x: Execution, owned: set<Id>, confirmed: bool, ao: Id -> Answer, handoff: Id -> Option<bool>)
    requires QuietBut(db, owned, confirmed, ao, handoff, {}) && SameTables(db, e) && Live(e, x)
    requires (x.state.Dispatched? || (x.state.Running? && x.stage.SendConfirmed?)) && x.attempt !in owned && x.stage.SendConfirmed? == confirmed
    ensures Quiet(x, ao(x.session), handoff(x.op))
  {
    assert Candidate(db, x.op, owned, confirmed);
  }

  lemma NothingElse(db: DB, xs: seq<Execution>, owned: set<Id>, confirmed: bool, ao: Id -> Answer, handoff: Id -> Option<bool>)
    requires forall d :: Candidate(db, d, owned, confirmed) ==> d in Ops(xs)
    ensures QuietBut(db, owned, confirmed, ao, handoff, Ops(xs))
  {}

  // --- phases --------------------------------------------------------------------------------------

  lemma QuietCarries(db: DB, e: DB, owned: set<Id>, confirmed: bool, ao: Id -> Answer, handoff: Id -> Option<bool>)
    requires QuietBut(db, owned, confirmed, ao, handoff, {})
    requires forall d :: Candidate(e, d, owned, confirmed) ==> SameExecution(db, e, d)
    ensures QuietBut(e, owned, confirmed, ao, handoff, {})
  {}

  // --- stops ---------------------------------------------------------------------------------------

  /** An in-flight stop that the sweep leaves in flight. */
  predicate Waiting(o: Stop, answer: Answer, now: Time) {
    match answer
    case AoStatus(session, gen, _, terminated) =>
      session == o.target.session && gen == o.target.gen && !terminated && o.stage.StopCallSucceeded? && o.deadline.Some? && now < o.deadline.value
    case AoProtocolError => o.stage.StopCallSucceeded? ==> o.deadline.Some? && now < o.deadline.value
    case AoUnavailable => o.stage.StopCallSucceeded? ==> o.deadline.Some? && now < o.deadline.value
    case _ => false
  }

  lemma InFlightStage(db: DB, o: Id)
    requires ScanInv(db) && StopLeft(db, o)
    ensures db.stops[o].stage.StopRequested? || db.stops[o].stage.StopCallSucceeded?
  {
    hide LiveStopsLater, TargetsCurrent;
    assert StopRow(db.stops[o]);
  }

  ghost predicate StopsWait(db: DB, ao: Id -> Answer, now: Time) {
    forall o :: StopLeft(db, o) ==> Waiting(db.stops[o], ao(db.stops[o].target.session), now)
  }

  lemma WaitCarries(db: DB, e: DB, ao: Id -> Answer, now: Time)
    requires StopsWait(db, ao, now) && SameStops(db, e)
    ensures StopsWait(e, ao, now)
  {
    forall o | StopLeft(e, o) ensures Waiting(e.stops[o], ao(e.stops[o].target.session), now) { assert StopLeft(db, o); }
  }

  /** The executions that no live stop owns. */
  ghost predicate UnownedSame(db: DB, e: DB) {
    forall d :: Unowned(db, d) ==> SameExecution(db, e, d)
  }

  predicate Unowned(db: DB, d: Id) { d in db.dispatches ==> db.dispatches[d].bound.attempt !in StopOwnedAttempts(db) }

  lemma OutcomeLeavesUnowned(db: DB, op: Id, o: Outcome)
    requires ScanInv(db) && StopOutcomeAdmits(db, op, o)
    ensures UnownedSame(db, StopOutcomeCommit(db, op, o))
  {
    hide Inv, LiveStopsLater, TargetsCurrent, OutcomeFits, OutcomeEvent, StopAudit, CloseLive, TouchRuntime, UnownedSame, CloseLiveAdmits;
    var stop := db.stops[op];
    var marked := db.(stops := db.stops[op := Settle(stop, o)], log := db.log + [OutcomeEvent(op, stop, o)]);
    if stop.target.purpose.RunningAttemptStop? {
      AttemptNumbersUnique(db);
      CloseLeavesUnowned(db, marked, op, o);
    } else {
      TouchLeavesUnowned(db, marked, stop.target, o);
    }
  }

  lemma CloseLeavesUnowned(db: DB, marked: DB, op: Id, o: Outcome)
    requires op in db.stops && marked == db.(stops := marked.stops, log := marked.log)
    requires db.stops[op].target.purpose.RunningAttemptStop? && CloseLiveAdmits(db, db.stops[op].target) && NumbersUnique(db.attempts)
    ensures UnownedSame(db, CloseLive(marked, op, db.stops[op].target, o))
  {
    hide OtherRisk, StopDisposition;
    assert db.stops[op].target.lineage.value.attempt in StopOwnedAttempts(db);
  }

  lemma TouchLeavesUnowned(db: DB, marked: DB, t: StopTarget, o: Outcome)
    requires marked == db.(stops := marked.stops, log := marked.log) && t.pair in db.sessions
    ensures UnownedSame(db, TouchRuntime(marked, t, o))
  {}

  lemma AbandonedLeavesUnowned(db: DB, op: Id, at: Time)
    requires op in db.stops
    ensures UnownedSame(db, AbandonedCommit(db, op, at))
  {}

  lemma OwnedShrinks(db: DB, e: DB)
    requires Shrinks(db, e)
    ensures StopOwnedAttempts(e) <= StopOwnedAttempts(db)
  {}

  /** An owner stays an owner until its attempt is closed. */
  lemma OwnersRemain(db: DB, e: DB, a: Id)
    requires Shrinks(db, e) && a in StopOwnedAttempts(db) && a in e.attempts && e.attempts[a].ended.None?
    ensures a in StopOwnedAttempts(e)
  {
    var o :| o in db.stops && StopNames(db.stops[o].target, a);
    assert o in e.stops && StopNames(e.stops[o].target, a);
  }

  /** What a settled stop leaves of the quiet executions. */
  lemma QuietUnowned(db: DB, e: DB, owned: set<Id>, confirmed: bool, ao: Id -> Answer, handoff: Id -> Option<bool>)
    requires QuietBut(db, owned, confirmed, ao, handoff, {}) && UnownedSame(db, e) && Shrinks(db, e)
    requires StopOwnedAttempts(db) <= owned && e.dispatches == db.dispatches
    ensures QuietBut(e, owned, confirmed, ao, handoff, {}) && StopOwnedAttempts(e) <= owned
  {
    hide Shrinks;
    OwnedShrinks(db, e);
    forall d | Candidate(e, d, owned, confirmed) ensures SameExecution(db, e, d) {
      assert Unowned(db, d);
    }
    QuietCarries(db, e, owned, confirmed, ao, handoff);
  }

  lemma ClosureCarries(db: DB, task: Id, a: Id, at: Time, owned: set<Id>, confirmed: bool, ao: Id -> Answer, handoff: Id -> Option<bool>)
    requires ScanInv(db) && ClosureAdmits(db, task, a) && QuietBut(db, owned, confirmed, ao, handoff, {})
    ensures QuietBut(ClosureCommit(db, task, a, at), owned, confirmed, ao, handoff, {})
  {
    hide ScanInv, AuditLineage, QuietBut;
    ClosureLeavesExecutions(db, task, a, at);
    QuietCarries(db, ClosureCommit(db, task, a, at), owned, confirmed, ao, handoff);
  }

  /** Closing a blocked attempt leaves the other executions as they are. */
  lemma ClosureLeavesExecutions(db: DB, task: Id, a: Id, at: Time)
    requires ScanInv(db) && ClosureAdmits(db, task, a)
    ensures var e := ClosureCommit(db, task, a, at); forall d :: HasExecution(e, d) ==> SameExecution(db, e, d)
  {
    hide LiveStopsLater, TargetsCurrent;
    assert NumbersUnique(db.attempts);
  }

  // --- the whole database -------------------------------------------------------------------------

  /** The log is no part of what the sweep looks at. */
  lemma SettledIgnoresLog(db: DB, e: DB, ao: Id -> Answer, handoff: Id -> Option<bool>, now: Time)
    requires SameTables(db, e) && Settled(db, ao, handoff, now)
    ensures Settled(e, ao, handoff, now)
  {
    assert (forall r :: RestoreLeft(e, r) ==> RestoreLeft(db, r)) && (forall p :: ProvisionLeft(e, p) ==> ProvisionLeft(db, p));
    assert forall a :: BlockedLeft(e, a) ==> BlockedLeft(db, a);
  }

  /** Quiet outside the attempts that were owned is quiet outside those that still are. */
  lemma QuietAtLast(snap: DB, db: DB, confirmed: bool, ao: Id -> Answer, handoff: Id -> Option<bool>)
    requires Shrinks(snap, db) && QuietBut(db, StopOwnedAttempts(snap), confirmed, ao, handoff, {})
    ensures QuietBut(db, StopOwnedAttempts(db), confirmed, ao, handoff, {})
  {
    hide Shrinks;
    forall d | Candidate(db, d, StopOwnedAttempts(db), confirmed) ensures Candidate(db, d, StopOwnedAttempts(snap), confirmed) {
      var a := db.dispatches[d].bound.attempt;
      if a in StopOwnedAttempts(snap) { OwnersRemain(snap, db, a); }
    }
  }

  /** Nothing that a sweep with these answers would write to a table. */
  ghost predicate Settled(db: DB, ao: Id -> Answer, handoff: Id -> Option<bool>, now: Time) {
    && (forall r :: !RestoreLeft(db, r)) && (forall p :: !ProvisionLeft(db, p)) && (forall a :: !BlockedLeft(db, a))
    && StopsWait(db, ao, now)
    && QuietBut(db, StopOwnedAttempts(db), false, ao, handoff, {})
    && QuietBut(db, StopOwnedAttempts(db), true, ao, handoff, {})
  }

  lemma SettledQuiet(db: DB, e: DB, ao: Id -> Answer, handoff: Id -> Option<bool>, now: Time)
    requires Settled(db, ao, handoff, now) && SameTables(db, e)
    ensures QuietBut(e, StopOwnedAttempts(db), true, ao, handoff, {})
  {}

  /** What the phases of a complete sweep add up to. */
  lemma AtRest(snap: DB, db: DB, ao: Id -> Answer, handoff: Id -> Option<bool>, now: Time)
    requires Shrinks(snap, db) && StopsWait(db, ao, now)
    requires (forall r :: !RestoreLeft(db, r)) && (forall p :: !ProvisionLeft(db, p)) && (forall a :: !BlockedLeft(db, a))
    requires QuietBut(db, StopOwnedAttempts(snap), false, ao, handoff, {}) && QuietBut(db, StopOwnedAttempts(snap), true, ao, handoff, {})
    ensures Settled(db, ao, handoff, now)
  {
    hide Shrinks, QuietBut, StopsWait;
    QuietAtLast(snap, db, false, ao, handoff);
    QuietAtLast(snap, db, true, ao, handoff);
  }
}
