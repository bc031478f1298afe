/** The database row by row. The transactions say what one call writes; here every table says
    what becomes of one of its rows, whichever of the transactions is committed. */
module RowEffects {
  import opened Domain
  import opened Tables
  import opened DispatchTransactions
  import opened RecoveryTransactions
  import opened StopTransactions
  import opened RestoreTransactions
  import opened ClearanceTransactions
  import opened Steps
  import History

  function Row<T>(table: map<Id, T>, k: Id): Option<T> { if k in table then Some(table[k]) else None }

  // --- tasks --------------------------------------------------------------------------------

  function Moved(was: Option<Task>, to: TaskState): Option<Task> {
    if was.Some? then Some(was.value.(state := to)) else None
  }

  /** The live attempt whose stop the step settles. */
  function Stopped(db: DB, s: Step): Option<StopLineage> {
    match s
    case StopStep(CommitOutcome(op, _)) =>
      if op in db.stops && db.stops[op].target.purpose.RunningAttemptStop? then db.stops[op].target.lineage else None
    case _ => None
  }

  /** The observation shows the task's own worker, alive. */
  predicate SeesWorker(x: Execution, seen: PostSend) { seen.LiveRuntime? && seen.gen == x.gen && !seen.terminated }

  /** The execution is lost: its worker is gone, another generation or dead, or it was found idle
      before it ever ran. */
  predicate Loses(x: Execution, seen: PostSend) {
    || !SeesWorker(x, seen)
    || (x.state == Dispatched && seen.activity == ActivityIdle && !seen.handoff)
  }

  predicate Ignores(x: Execution, seen: PostSend) {
    !Loses(x, seen) && x.disposition != None && x.disposition != Some(RecoveryPending)
  }

  function TaskAfter(db: DB, s: Step, t: Id): Option<Task> {
    var was := Row(db.tasks, t);
    match s
    case TaskStep(CreateTask(task, pair)) => if task == t then Some(Task(pair, Draft, 0)) else was
    case TaskStep(Transition(task, _, to)) => if task == t then Moved(was, to) else was
    case DispatchStep(Prepare(x)) => if x.task == t && was.Some? then Some(Task(was.value.pair, Dispatched, was.value.current + 1)) else was
    case DispatchStep(UnknownDelivery(op, _)) => if op in db.dispatches && db.dispatches[op].bound.task == t then Moved(was, HumanRequired) else was
    case ExecutionStep(Terminal(task, _, _, _, _)) => if task == t then Moved(was, Failed) else was
    case ExecutionStep(Closure(task, _, _)) => if task == t then Moved(was, HumanRequired) else was
    case ExecutionStep(Observe(x, seen, _)) =>
      if x.task != t || Ignores(x, seen) then was
      else if Loses(x, seen) then Moved(was, Failed)
      else if x.state == Dispatched && seen.activity != ActivityExited then Moved(was, Running)
      else was
    case StopStep(CommitOutcome(_, _)) => if Stopped(db, s).Some? && Stopped(db, s).value.task == t then Moved(was, Failed) else was
    case _ => was
  }

  // --- contracts ----------------------------------------------------------------------------

  function ContractAfter(db: DB, s: Step, c: Id): Option<Contract> {
    var was := Row(db.contracts, c);
    match s
    case TaskStep(InsertContract(id, task, revision, supersedes, baseSha)) => if id == c then Some(Contract(task, revision, supersedes, baseSha, false)) else was
    case DispatchStep(Prepare(x)) => if x.contract == c && was.Some? then Some(was.value.(frozen := true)) else was
    case _ => was
  }

  // --- attempts -----------------------------------------------------------------------------

  function Closed(was: Option<Attempt>, at: Time, why: Disposition, poisoned: bool): Option<Attempt> {
    if was.Some? then Some(was.value.(ended := Some(at), disposition := Some(why), quarantined := poisoned)) else None
  }

  function Held(was: Option<Attempt>, hold: Option<Disposition>): Option<Attempt> {
    if was.Some? then Some(was.value.(disposition := hold)) else None
  }

  function Poisoned(was: Option<Attempt>, poisoned: bool): Option<Attempt> {
    if was.Some? then Some(was.value.(quarantined := poisoned)) else None
  }

  /** The attempt belongs to the Pair and ran on this runtime. */
  predicate RanOn(db: DB, a: Id, pair: Id, session: Id, gen: Id) {
    && a in db.attempts && db.attempts[a].lineage.task in db.tasks
    && db.tasks[db.attempts[a].lineage.task].pair == pair
    && db.attempts[a].lineage.session == session && db.attempts[a].lineage.gen == gen
  }

  /** The end a live stop gives its attempt. */
  function StopEnd(r: Resolution): Disposition {
    match r
    case TerminationConfirmed => WorkerStopped
    case TargetAbsent => SessionAbsent
    case ConfirmationTimeout => StopConfirmationTimedOut
    case GenerationMismatch => StopGenerationMismatched
    case CallOutcomeUnknown => StopCallUnknown
    case _ => WorkerTerminationUnknown
  }

  function ObservedAttempt(was: Option<Attempt>, x: Execution, seen: PostSend, at: Time): Option<Attempt> {
    if was.None? || Ignores(x, seen) then was
    else if seen.AbsentRuntime? then Closed(was, at, SessionAbsent, true)
    else if seen.gen != x.gen then Closed(was, at, StaleExecutionGeneration, true)
    else if seen.terminated then Closed(was, at, WorkerTerminationUnknown, was.value.quarantined)
    else if Loses(x, seen) then Closed(was, at, MissedActiveWindow, was.value.quarantined)
    else match seen.activity
      case ActivityWaitingInput => Held(was, Some(AoWaitingInputObserved))
      case ActivityBlocked => Held(was, Some(AoBlockedDecision))
      case ActivityIdle => Held(was, if x.state == Dispatched then Some(MissedActiveWindow) else None)
      case _ => Held(was, None)
  }

  function AttemptAfter(db: DB, s: Step, a: Id): Option<Attempt> {
    var was := Row(db.attempts, a);
    match s
    case DispatchStep(Prepare(x)) =>
      if x.attempt == a && x.task in db.tasks
      then Some(Attempt(Lineage(x.task, x.contract, db.tasks[x.task].current + 1, x.session, x.gen), None, None, false)) else was
    case DispatchStep(Hold(op, hold)) => if op in db.dispatches && db.dispatches[op].bound.attempt == a then Held(was, Some(hold)) else was
    case DispatchStep(ResolveHold(_, attempt, _, _, _, _, _)) => if attempt == a then Held(was, None) else was
    case DispatchStep(UnknownDelivery(op, at)) =>
      if op in db.dispatches && db.dispatches[op].bound.attempt == a then Closed(was, at, UncertainDeliveryCrash, true) else was
    case ExecutionStep(Terminal(_, _, attempt, why, at)) =>
      if attempt != a || was.None? then was
      else Closed(was, at, why, was.value.quarantined || why in {PreSendIdentityMismatch, StaleExecutionGeneration, SessionAbsent})
    case ExecutionStep(Closure(_, attempt, at)) => if attempt == a && was.Some? then Closed(was, at, AoBlockedEscalated, was.value.quarantined) else was
    case ExecutionStep(RecordOutage(x)) => if x.attempt == a then Held(was, Some(RecoveryPending)) else was
    case ExecutionStep(Observe(x, seen, at)) => if x.attempt == a then ObservedAttempt(was, x, seen, at) else was
    case StopStep(ReserveStop(_, t)) => if t.purpose == RunningAttemptStop && t.lineage.Some? && t.lineage.value.attempt == a then Poisoned(was, true) else was
    case StopStep(CommitOutcome(_, o)) =>
      if Stopped(db, s).Some? && Stopped(db, s).value.attempt == a then Closed(was, o.at, StopEnd(o.resolution), o.resolution != TerminationConfirmed) else was
    case RestoreStep(ReserveRestore(_, tuple)) => if RanOn(db, a, tuple.pair, tuple.session, tuple.expected) then Poisoned(was, true) else was
    case RestoreStep(ClassifyInterrupted(op)) =>
      if op in db.restores && var t := db.restores[op].tuple; RanOn(db, a, t.pair, t.session, t.expected) then Poisoned(was, true) else was
    case PairStep(Clear(rq)) => if exists i | 0 <= i < |rq.attempts| :: rq.attempts[i].ref.attempt == Some(a) then Poisoned(was, false) else was
    case _ => was
  }

  // --- sessions -----------------------------------------------------------------------------

  function Guarded(was: Option<Session>): Option<Session> { if was.Some? then Some(was.value.(quarantined := true)) else None }

  /** Besides one attempt, the Pair holds a quarantined attempt, an unresolved restore or an
      unknown delivery. */
  predicate MoreRisk(db: DB, pair: Id, but: Option<StopLineage>) {
    || (exists a | a in db.attempts :: (but.None? || a != but.value.attempt) && db.attempts[a].quarantined
          && db.attempts[a].lineage.task in db.tasks && db.tasks[db.attempts[a].lineage.task].pair == pair)
    || (exists r | r in db.restores :: db.restores[r].tuple.pair == pair && db.restores[r].resolution != RestoreResolved)
    || (exists d | d in db.dispatches :: db.dispatches[d].bound.pair == pair && db.dispatches[d].unknown)
  }

  /** A settled stop leaves its Pair quarantined, but for a live one that ended the only risk; a
      confirmed one terminates the session it named. */
  function StoppedSession(db: DB, s: Step, t: StopTarget, r: Resolution, was: Session): Session {
    if was.gen != t.gen then was
    else
      was.(status := if r == TerminationConfirmed then SessionTerminated else was.status,
           quarantined := !(t.purpose == RunningAttemptStop && r == TerminationConfirmed && !MoreRisk(db, t.pair, t.lineage)))
  }

  function SessionAfter(db: DB, s: Step, p: Id): Option<Session> {
    var was := Row(db.sessions, p);
    match s
    case PairStep(ConfirmProvision(_, pair, row)) => if pair == p then Some(row) else was
    case PairStep(UpdateStatus(pair, _, _, status)) => if pair == p && was.Some? then Some(was.value.(status := status)) else was
    case PairStep(Clear(rq)) => if rq.pair == p && was.Some? then Some(was.value.(quarantined := false)) else was
    case DispatchStep(UnknownDelivery(op, _)) => if op in db.dispatches && db.dispatches[op].bound.pair == p then Guarded(was) else was
    case ExecutionStep(Terminal(task, _, _, why, _)) =>
      if task in db.tasks && db.tasks[task].pair == p && why in {PreSendIdentityMismatch, StaleExecutionGeneration, SessionAbsent} then Guarded(was) else was
    case ExecutionStep(Observe(x, seen, _)) =>
      if x.pair != p || was.None? then was
      else if seen.AbsentRuntime? || seen.gen != x.gen then Guarded(was)
      else if seen.terminated then Some(was.value.(status := SessionTerminated))
      else was
    case StopStep(ReserveStop(_, t)) => if t.pair == p then Guarded(was) else was
    case StopStep(CommitOutcome(op, o)) =>
      if op in db.stops && db.stops[op].target.pair == p && was.Some? then Some(StoppedSession(db, s, db.stops[op].target, o.resolution, was.value)) else was
    case RestoreStep(ReserveRestore(_, tuple)) => if tuple.pair == p then Guarded(was) else was
    case RestoreStep(ConfirmRestore(op, session, _, newGen, status, _)) =>
      if op in db.restores && db.restores[op].tuple.pair == p then Some(Session(session, newGen, status, true)) else was
    case RestoreStep(ClassifyInterrupted(op)) => if op in db.restores && db.restores[op].tuple.pair == p then Guarded(was) else was
    case _ => was
  }

  function ProvisionAfter(db: DB, s: Step, p: Id): Option<Provision> {
    var was := Row(db.provisions, p);
    match s
    case PairStep(ReserveProvision(op, pair)) => if op == p then Some(Provision(pair, ProvisionRequested, None)) else was
    case PairStep(ConfirmProvision(op, pair, row)) => if op == p then Some(Provision(pair, ProvisionConfirmed, Some(row.session))) else was
    case PairStep(FailProvision(op)) => if op == p && was.Some? then Some(was.value.(stage := ProvisionFailed)) else was
    case _ => was
  }

  // --- dispatches and budgets ---------------------------------------------------------------

  function DispatchAfter(db: DB, s: Step, d: Id): Option<Dispatch> {
    var was := Row(db.dispatches, d);
    match s
    case DispatchStep(Prepare(x)) =>
      if x.op == d && x.task in db.tasks
      then Some(Dispatch(Binding(x.attempt, db.tasks[x.task].pair, x.task, x.session, x.gen), DispatchBound, None, false)) else was
    case DispatchStep(RequestSend(op, _, _)) => if op == d && was.Some? then Some(was.value.(stage := SendRequested)) else was
    case DispatchStep(ConfirmSend(op, _, at, _, _)) => if op == d && was.Some? then Some(was.value.(stage := SendConfirmed, confirmedAt := Some(at))) else was
    case DispatchStep(UnknownDelivery(op, _)) => if op == d && was.Some? then Some(was.value.(unknown := true)) else was
    case _ => was
  }

  function BudgetAfter(db: DB, s: Step, a: Id): Option<Budget> {
    match s
    case DispatchStep(ConfirmSend(op, _, at, duration, policy)) =>
      if op in db.dispatches && db.dispatches[op].bound.attempt == a then Some(Budget(op, at, at + duration, duration, policy, false)) else Row(db.budgets, a)
    case _ => Row(db.budgets, a)
  }

  // --- stops and restores -------------------------------------------------------------------

  /** A reservation inserts the row in flight; nothing but its resolution and its call change. */
  function StopAfter(db: DB, s: Step, o: Id): Option<Stop> {
    var was := Row(db.stops, o);
    match s
    case StopStep(ReserveStop(op, t)) => if op == o then Some(Stop(t, StopRequested, None, None, None, None, InFlight)) else was
    case RestoreStep(ClaimCleanup(op, t, _, _)) => if op == o then Some(Stop(t, StopRequested, None, None, None, None, InFlight)) else was
    case StopStep(CallAccepted(op, callAt, deadline)) =>
      if op == o && was.Some? then Some(was.value.(stage := StopCallSucceeded, callAt := Some(callAt), deadline := Some(deadline))) else was
    case StopStep(CommitOutcome(op, r)) =>
      if op == o && was.Some?
      then Some(was.value.(stage := r.stage, resolution := r.resolution, resolvedAt := Some(r.at),
                           confirmedAt := if r.resolution == TerminationConfirmed then Some(r.at) else None)) else was
    case StopStep(ClassifyAbandoned(op, _, _, at)) => if op == o && was.Some? then Some(was.value.(resolution := ReissueRequiresHuman, resolvedAt := Some(at))) else was
    case StopStep(AcceptRisk(d)) =>
      if d.stop == o && was.Some? && was.value.resolution != TargetAbsent then Some(was.value.(resolution := RiskAccepted, resolvedAt := Some(d.at))) else was
    case _ => was
  }

  /** The rowid order grows with each reservation. */
  function OrderAfter(db: DB, s: Step): seq<Id> {
    match s
    case StopStep(ReserveStop(op, _)) => db.stopOrder + [op]
    case RestoreStep(ClaimCleanup(op, _, _, _)) => db.stopOrder + [op]
    case _ => db.stopOrder
  }

  /** Each UPDATE adds one to the version; a claim writes who and when, a resolution its basis. */
  function RestoreAfter(db: DB, s: Step, r: Id): Option<Restore> {
    var was := Row(db.restores, r);
    match s
    case RestoreStep(ReserveRestore(op, tuple)) =>
      if op == r then Some(Restore(tuple, None, None, RestoreRequested, RestoreInFlight, None, None, None, None, 0)) else was
    case RestoreStep(UnknownRestore(op)) => if op == r && was.Some? then Some(was.value.(resolution := RestoreOutcomeUnknown, version := was.value.version + 1)) else was
    case RestoreStep(ClassifyInterrupted(op)) => if op == r && was.Some? then Some(was.value.(resolution := RestoreOutcomeUnknown, version := was.value.version + 1)) else was
    case RestoreStep(ConfirmRestore(op, _, _, newGen, _, at)) =>
      if op == r && was.Some? then Some(was.value.(stage := RestoreConfirmed, observed := Some(newGen), http200At := Some(at), version := was.value.version + 1)) else was
    case RestoreStep(ClaimRecovery(op, _, _, _, principal, at)) =>
      if op == r && was.Some? then Some(was.value.(resolution := RecoveryClaimed, principal := Some(principal), claimedAt := Some(at), version := was.value.version + 1)) else was
    case RestoreStep(ClaimCleanup(_, t, _, _)) =>
      if t.restore == Some(r) && was.Some? then Some(was.value.(resolution := CleanupClaimed, version := was.value.version + 1)) else was
    case RestoreStep(ResolveConfirmed(op, _, _, _, principal, at)) =>
      if op == r && was.Some? then Some(Resolved(was.value, was.value.resolution == RestoreInFlight, Http200Basis, principal, at)) else was
    case RestoreStep(ResolveAmbiguous(op, _, _, _, basis, principal, at)) =>
      if op == r && was.Some? then Some(Resolved(was.value, was.value.resolution == RestoreOutcomeUnknown, basis, principal, at)) else was
    case _ => was
  }

  function Resolved(was: Restore, unclaimed: bool, basis: RestoreBasis, principal: Id, at: Time): Restore {
    was.(resolution := RestoreResolved, basis := Some(basis), resolvedAt := Some(at),
         principal := if unclaimed then Some(principal) else was.principal,
         claimedAt := if unclaimed then Some(at) else was.claimedAt,
         version := was.version + if unclaimed then 2 else 1)
  }

  // --- the log ------------------------------------------------------------------------------

  /** One acceptance for each lineage the decision names, in order. */
  ghost predicate AcceptancesWritten(d: Decision, events: seq<Event>) {
    && |events| == |d.lineages|
    && forall i | 0 <= i < |events| ::
         events[i] == RiskAcceptedEvent(d.stop, d.pair, d.principal, d.lineages[i], if d.expectedResolution == TargetAbsent then ClassB else ClassC,
                        d.restore, d.expectedResolution, d.reason, d.evidence)
  }

  /** One clearance for each lineage of the request, the session last. */
  ghost predicate ClearancesWritten(rq: Request, events: seq<Event>) {
    && |events| == |rq.attempts| + 1
    && forall i | 0 <= i < |events| ::
         var item := if i < |rq.attempts| then rq.attempts[i] else rq.session;
         && item.stop.Some?
         && events[i] == LineageClearedEvent(rq.pair, item.ref, item.stop.value, item.basis == PhysicalClearance, TerminalGeneration)
  }

  /** The end of a live attempt, and what a confirmed one clears. */
  function StopWritten(db: DB, op: Id, t: StopTarget, o: Outcome): seq<Event> {
    if t.purpose != RunningAttemptStop || t.lineage.None? then []
    else
      var l := t.lineage.value;
      var cleared := LineageClearedEvent(t.pair, LineageRef(Some(l.attempt), t.session, t.gen), op, true, TargetGeneration);
      [TaskTransitionEvent(t.pair, l.task, l.attempt, Running, Failed, None)]
      + (if o.resolution != TerminationConfirmed then [] else if MoreRisk(db, t.pair, t.lineage) then [cleared] else [cleared, cleared])
  }

  function OutcomeWritten(op: Id, row: Stop, o: Outcome): Event {
    var t := row.target;
    match o.resolution
    case TerminationConfirmed =>
      if row.deadline.Some?
      then StopConfirmedEvent(op, t.pair, t.lineage, t.session, t.gen, t.restore, row.deadline.value, o.at, Observation(t.session, t.gen, true))
      else Note(StopOutcomeNote, op)
    case TargetAbsent => StopTargetAbsentEvent(op, t.pair)
    case _ => Note(StopOutcomeNote, op)
  }

  function DispatchWritten(db: DB, s: DispatchOp): seq<Event> {
    match s
    case Prepare(x) => [Note(DispatchBoundNote, x.op)]
    case Hold(op, _) => [Note(PreSendRejectedNote, op)]
    case Reject(op, _) => [Note(PreSendRejectedNote, op)]
    case ResolveHold(op, _, _, _, _, _, _) => [Note(PreSendRecoveredNote, op)]
    case RequestSend(op, _, _) =>
      if op in db.dispatches then var b := db.dispatches[op].bound; [SendRequestedEvent(op, b.pair, b.task, b.attempt, b.session, b.gen)] else []
    case ConfirmSend(op, _, _, _, _) =>
      if op in db.dispatches then var b := db.dispatches[op].bound; [SendConfirmedEvent(op, b.pair, b.task, b.attempt)] else []
    case UnknownDelivery(op, _) =>
      if op !in db.dispatches then []
      else
        var b := db.dispatches[op].bound;
        [TaskTransitionEvent(b.pair, b.task, b.attempt, Dispatched, Failed, Some(op)), DeliveryQuarantineEvent(op, b.pair, b.task, b.attempt, b.session, b.gen),
         TaskTransitionEvent(b.pair, b.task, b.attempt, Failed, HumanRequired, Some(op))]
  }

  function ObservationWritten(x: Execution, seen: PostSend): seq<Event> {
    if Ignores(x, seen) then []
    else
      (if x.disposition == Some(RecoveryPending) then [Note(PostSendRecoveredNote, x.op)] else [])
      + (if Loses(x, seen) then [TaskTransitionEvent(x.pair, x.task, x.attempt, x.state, Failed, Some(x.op))]
         else if x.state == Dispatched && seen.activity != ActivityExited then [TaskTransitionEvent(x.pair, x.task, x.attempt, Dispatched, Running, Some(x.op))]
         else [])
      + (if SeesWorker(x, seen) && seen.activity == ActivityBlocked then [Note(BlockedOnDecisionNote, x.op)] else [])
      + (if SeesWorker(x, seen) && seen.activity == ActivityIdle && x.state == Dispatched then [Note(MissedWindowNote, x.op)] else [])
  }

  /** The log only grows, by these events. */
  ghost predicate LogAfter(db: DB, s: Step, e: DB) {
    && db.log <= e.log
    && var new_ := e.log[|db.log|..];
    match s
    case TaskStep(_) => new_ == []
    case PairStep(ReserveProvision(op, _)) => new_ == [Note(ProvisionRequestedNote, op)]
    case PairStep(ConfirmProvision(op, _, _)) => new_ == [Note(ProvisionedNote, op)]
    case PairStep(FailProvision(op)) => new_ == [Note(ProvisionFailedNote, op)]
    case PairStep(UpdateStatus(_, _, _, _)) => new_ == []
    case PairStep(Clear(rq)) => ClearancesWritten(rq, new_)
    case PairStep(AppendAudit(event)) => new_ == [event]
    case DispatchStep(d) => new_ == DispatchWritten(db, d)
    case ExecutionStep(Terminal(task, from, attempt, _, _)) =>
      task in db.tasks && new_ == [TaskTransitionEvent(db.tasks[task].pair, task, attempt, from, Failed, None)]
    case ExecutionStep(Closure(_, attempt, _)) => new_ == [Note(BlockedEscalatedNote, attempt)]
    case ExecutionStep(RecordOutage(x)) => new_ == [Note(PostSendPendingNote, x.op)]
    case ExecutionStep(Observe(x, seen, _)) => new_ == ObservationWritten(x, seen)
    case StopStep(ReserveStop(op, _)) => new_ == [Note(StopRequestedNote, op)]
    case StopStep(CallAccepted(op, _, _)) => new_ == [Note(StopCallSucceededNote, op)]
    case StopStep(CommitOutcome(op, o)) =>
      op in db.stops && new_ == [OutcomeWritten(op, db.stops[op], o)] + StopWritten(db, op, db.stops[op].target, o)
    case StopStep(ClassifyAbandoned(op, _, _, _)) => new_ == [Note(StopOutcomeNote, op)]
    case StopStep(AcceptRisk(d)) => AcceptancesWritten(d, new_)
    case RestoreStep(ReserveRestore(op, _)) => new_ == [Note(RestoreRiskNote, op), Note(RestoreRequestedNote, op)]
    case RestoreStep(UnknownRestore(op)) => new_ == [Note(RestoreUnknownNote, op)]
    case RestoreStep(ConfirmRestore(op, _, _, _, _, _)) => new_ == [Note(RestoreConfirmedNote, op)]
    case RestoreStep(ResolveConfirmed(op, _, _, _, _, _)) =>
      op in db.restores && new_ == (if db.restores[op].resolution == RestoreInFlight then [Note(RestoreClaimedNote, op)] else []) + [Note(RestoreResolvedNote, op)]
    case RestoreStep(ClaimRecovery(op, _, _, _, _, _)) => new_ == [Note(RestoreClaimedNote, op)]
    case RestoreStep(ClaimCleanup(op, t, _, _)) => t.restore.Some? && new_ == [Note(RestoreCleanupNote, t.restore.value), Note(StopRequestedNote, op)]
    case RestoreStep(ResolveAmbiguous(op, _, _, _, _, _, _)) => new_ == [Note(RestoreClaimedNote, op), Note(RestoreResolvedNote, op)]
    case RestoreStep(ClassifyInterrupted(op)) => new_ == [Note(RestoreUnknownNote, op)]
  }

  // --- every step, every row ----------------------------------------------------------------

  ghost predicate LineageRows(db: DB, s: Step, e: DB) {
    && (forall t :: Row(e.tasks, t) == TaskAfter(db, s, t))
    && (forall c :: Row(e.contracts, c) == ContractAfter(db, s, c))
    && forall a :: Row(e.attempts, a) == AttemptAfter(db, s, a)
  }

  ghost predicate PairRows(db: DB, s: Step, e: DB) {
    && (forall p :: Row(e.sessions, p) == SessionAfter(db, s, p))
    && (forall p :: Row(e.provisions, p) == ProvisionAfter(db, s, p))
  }

  ghost predicate OperationRows(db: DB, s: Step, e: DB) {
    && (forall d :: Row(e.dispatches, d) == DispatchAfter(db, s, d))
    && (forall a :: Row(e.budgets, a) == BudgetAfter(db, s, a))
    && (forall o :: Row(e.stops, o) == StopAfter(db, s, o))
    && e.stopOrder == OrderAfter(db, s)
    && forall r :: Row(e.restores, r) == RestoreAfter(db, s, r)
  }

  ghost predicate Rowwise(db: DB, s: Step, e: DB) {
    LineageRows(db, s, e) && PairRows(db, s, e) && OperationRows(db, s, e) && LogAfter(db, s, e)
  }

  lemma TaskStepRows(db: DB, s: TaskOp)
    requires TaskAllowed(db, s)
    ensures Rowwise(db, TaskStep(s), TaskEffect(db, s))
  {}

  lemma PairStepRows(db: DB, s: PairOp)
    requires PairAllowed(db, s)
    ensures Rowwise(db, PairStep(s), PairEffect(db, s))
  {
    if s.Clear? {
      hide Rowwise, ClearAdmits, ClearCommit;
      ClearedRows(db, s.rq);
    }
  }

  lemma ClearedRows(db: DB, rq: Request)
    requires ClearAdmits(db, rq)
    ensures Rowwise(db, PairStep(Clear(rq)), ClearCommit(db, rq))
  {}

  lemma PreparedRows(db: DB, x: Allocation)
    requires PrepareAdmits(db, x.task, x.contract, x.attempt, x.op, x.session, x.gen)
    ensures Rowwise(db, DispatchStep(Prepare(x)), PrepareCommit(db, x.task, x.contract, x.attempt, x.op, x.session, x.gen))
  {}

  lemma SendRows(db: DB, s: DispatchOp)
    requires DispatchAllowed(db, s) && !s.Prepare?
    ensures Rowwise(db, DispatchStep(s), DispatchEffect(db, s))
  {}

  lemma DispatchStepRows(db: DB, s: DispatchOp)
    requires DispatchAllowed(db, s)
    ensures Rowwise(db, DispatchStep(s), DispatchEffect(db, s))
  {
    hide Rowwise;
    if s.Prepare? { PreparedRows(db, s.x); } else { SendRows(db, s); }
  }

  /** What an observation writes into the attempt, the task, the session and the log. */
  lemma ObservedValues(a: Attempt, w: Session, x: Execution, seen: PostSend, at: Time)
    requires a.disposition == x.disposition && !ObserveIgnored(x, seen)
    ensures !Ignores(x, seen)
    ensures Some(ObserveRow(a, x, seen, at)) == ObservedAttempt(Some(a), x, seen, at)
    ensures ObservedState(x, seen) == if Loses(x, seen) then Failed else if x.state == Dispatched && seen.activity != ActivityExited then Running else x.state
    ensures ObserveSession(w, x, seen) ==
      if seen.AbsentRuntime? || seen.gen != x.gen then w.(quarantined := true)
      else if seen.terminated then w.(status := SessionTerminated) else w
    ensures x.state == Dispatched || x.state == Running ==> ObserveEvents(x, seen) == ObservationWritten(x, seen)
  {}

  lemma IgnoredValues(was: Option<Attempt>, x: Execution, seen: PostSend, at: Time)
    requires ObserveIgnored(x, seen)
    ensures Ignores(x, seen) && ObservationWritten(x, seen) == [] && ObservedAttempt(was, x, seen, at) == was
  {}

  lemma ObservedRows(db: DB, x: Execution, seen: PostSend, at: Time)
    requires ObserveAdmits(db, x, seen)
    ensures Rowwise(db, ExecutionStep(Observe(x, seen, at)), ObserveCommit(db, x, seen, at))
  {
    hide StopOwned, AuditLineage, ObserveRow, ObserveSession, ObservedState, ObserveEvents, ObservationWritten, ObservedAttempt;
    if ObserveIgnored(x, seen) {
      IgnoredValues(Row(db.attempts, x.attempt), x, seen, at);
    } else {
      ObservedValues(db.attempts[x.attempt], db.sessions[x.pair], x, seen, at);
    }
  }

  lemma ExecutionStepRows(db: DB, s: ExecutionOp)
    requires ExecutionAllowed(db, s)
    ensures Rowwise(db, ExecutionStep(s), ExecutionEffect(db, s))
  {
    if s.Observe? {
      hide Rowwise, ObserveAdmits, ObserveCommit;
      ObservedRows(db, s.x, s.seen, s.at);
    }
  }

  lemma SettledLiveRows(db: DB, op: Id, o: Outcome)
    requires StopOutcomeAdmits(db, op, o) && db.stops[op].target.purpose.RunningAttemptStop?
    ensures Rowwise(db, StopStep(CommitOutcome(op, o)), StopOutcomeCommit(db, op, o))
  {}

  lemma SettledRows(db: DB, op: Id, o: Outcome)
    requires StopOutcomeAdmits(db, op, o) && !db.stops[op].target.purpose.RunningAttemptStop?
    ensures Rowwise(db, StopStep(CommitOutcome(op, o)), StopOutcomeCommit(db, op, o))
  {
    hide TouchRuntime, CloseLive, OwnerAdmits, StopAudit, MoreRisk, StopEnd;
    var stop := db.stops[op];
    TouchedSession(db.(stops := db.stops[op := Settle(stop, o)], log := db.log + [OutcomeEvent(op, stop, o)]), stop.target, o);
  }

  lemma TouchedSession(db: DB, t: StopTarget, o: Outcome)
    requires t.pair in db.sessions && (Physical(o) <==> o.resolution.TerminationConfirmed?)
    ensures var was := db.sessions[t.pair];
      TouchRuntime(db, t, o) == db.(sessions := db.sessions[t.pair :=
        if was.gen != t.gen then was
        else was.(status := if o.resolution == TerminationConfirmed then SessionTerminated else was.status, quarantined := true)])
  {
    if db.sessions[t.pair].gen != t.gen { assert db.sessions == db.sessions[t.pair := db.sessions[t.pair]]; }
  }

  lemma UnsettledRows(db: DB, s: StopOp)
    requires StopAllowed(db, s) && !s.CommitOutcome?
    ensures Rowwise(db, StopStep(s), StopEffect(db, s))
  {}

  lemma StopStepRows(db: DB, s: StopOp)
    requires StopAllowed(db, s)
    ensures Rowwise(db, StopStep(s), StopEffect(db, s))
  {
    hide Rowwise;
    if !s.CommitOutcome? {
      UnsettledRows(db, s);
    } else if db.stops[s.op].target.purpose.RunningAttemptStop? {
      SettledLiveRows(db, s.op, s.outcome);
    } else {
      SettledRows(db, s.op, s.outcome);
    }
  }

  lemma QuarantinedRows(db: DB, s: RestoreOp)
    requires RestoreAllowed(db, s) && (s.ReserveRestore? || s.ClassifyInterrupted?)
    ensures Rowwise(db, RestoreStep(s), RestoreEffect(db, s))
  {}

  lemma RestoreStepRows(db: DB, s: RestoreOp)
    requires RestoreAllowed(db, s)
    ensures Rowwise(db, RestoreStep(s), RestoreEffect(db, s))
  {
    if s.ReserveRestore? || s.ClassifyInterrupted? {
      hide Rowwise;
      QuarantinedRows(db, s);
    } else {
      hide ReserveRestoreAdmits, InterruptedAdmits, QuarantineRuntime, PhysicalCoverage, AdministrativeCoverage, UnsettledLinkedStop, LineageMatches;
    }
  }

  /** The transactions, table by table. */
  lemma StepRows(db: DB, s: Step)
    requires Allowed(db, s)
    ensures Rowwise(db, s, Effect(db, s))
  {
    hide TaskAllowed, PairAllowed, DispatchAllowed, ExecutionAllowed, StopAllowed, RestoreAllowed;
    hide TaskEffect, PairEffect, DispatchEffect, ExecutionEffect, StopEffect, RestoreEffect, Rowwise;
    match s
    case TaskStep(t) => TaskStepRows(db, t);
    case PairStep(t) => PairStepRows(db, t);
    case DispatchStep(t) => DispatchStepRows(db, t);
    case ExecutionStep(t) => ExecutionStepRows(db, t);
    case StopStep(t) => StopStepRows(db, t);
    case RestoreStep(t) => RestoreStepRows(db, t);
  }

  // --- what a step finds --------------------------------------------------------------------

  /** A reservation is new, unlinked and aims at the current runtime; a live one at the RUNNING
      current attempt, a timeout at a budget that has ended. */
  predicate FindsTarget(db: DB, op: Id, t: StopTarget) {
    && op !in db.stops && t.restore == None && SessionIs(db.sessions, t.pair, t.session, t.gen)
    && (t.purpose == RunningAttemptStop ==>
          && t.lineage.Some? && IsCurrent(db.tasks, db.attempts, t.lineage.value.attempt)
          && db.tasks[db.attempts[t.lineage.value.attempt].lineage.task].state == Running)
    && (t.timeout ==>
          && t.purpose == RunningAttemptStop && t.lineage.Some? && t.lineage.value.attempt in db.budgets
          && db.budgets[t.lineage.value.attempt].deadline <= t.requestedAt)
  }

  /** The rows an admitted step is about: what it inserts is new, and what it takes on is there, at
      the stage it is taken on from. */
  predicate Finds(db: DB, s: Step) {
    match s
    case TaskStep(Transition(_, _, to)) => to != Dispatched
    case PairStep(ReserveProvision(op, _)) => op !in db.provisions
    case PairStep(ConfirmProvision(op, pair, _)) => pair !in db.sessions && op in db.provisions && db.provisions[op].stage == ProvisionRequested
    case PairStep(FailProvision(op)) => op in db.provisions && db.provisions[op].stage == ProvisionRequested
    case PairStep(Clear(rq)) =>
      forall i | 0 <= i < |rq.attempts| :: rq.attempts[i].ref.attempt.Some? && OnPair(db.tasks, db.attempts, rq.attempts[i].ref.attempt.value, rq.pair)
    case DispatchStep(Prepare(x)) => x.attempt !in db.attempts && x.op !in db.dispatches && x.task in db.tasks
    case DispatchStep(RequestSend(op, _, _)) => op in db.dispatches && db.dispatches[op].stage == DispatchBound
    case DispatchStep(ConfirmSend(op, _, _, _, _)) => op in db.dispatches && db.dispatches[op].stage == SendRequested
    case DispatchStep(UnknownDelivery(op, _)) => op in db.dispatches
    case StopStep(ReserveStop(op, t)) => FindsTarget(db, op, t)
    case StopStep(CallAccepted(op, _, _)) => op in db.stops && db.stops[op].stage == StopRequested
    case StopStep(CommitOutcome(op, o)) =>
      && op in db.stops && db.stops[op].resolution == InFlight && o.resolution != InFlight
      && var t := db.stops[op].target;
      if t.purpose == RunningAttemptStop
      then t.lineage.Some? && t.lineage.value.attempt in db.attempts && db.attempts[t.lineage.value.attempt].ended == None
      else t.pair in db.sessions && (t.purpose == PairMaintenance ==> db.sessions[t.pair].gen == t.gen)
    case StopStep(ClassifyAbandoned(op, _, _, _)) => op in db.stops && db.stops[op].stage == StopRequested && db.stops[op].resolution == InFlight
    case StopStep(AcceptRisk(d)) => d.stop in db.stops && db.stops[d.stop].resolution != InFlight
    case RestoreStep(ReserveRestore(op, _)) => op !in db.restores
    case RestoreStep(ConfirmRestore(op, _, _, _, _, _)) => op in db.restores && db.restores[op].resolution == RestoreInFlight
    case RestoreStep(ClassifyInterrupted(op)) => op in db.restores && db.restores[op].stage == RestoreRequested && db.restores[op].resolution == RestoreInFlight
    case RestoreStep(ClaimCleanup(op, t, _, _)) => op !in db.stops && t.restore.Some? && t.purpose != RunningAttemptStop
    case _ => true
  }

  lemma PairFinds(db: DB, s: PairOp)
    requires PairAllowed(db, s)
    ensures Finds(db, PairStep(s))
  {}

  lemma DispatchFinds(db: DB, s: DispatchOp)
    requires DispatchAllowed(db, s)
    ensures Finds(db, DispatchStep(s))
  {}

  lemma StopFinds(db: DB, s: StopOp)
    requires StopAllowed(db, s)
    ensures Finds(db, StopStep(s))
  {}

  lemma RestoreFinds(db: DB, s: RestoreOp)
    requires RestoreAllowed(db, s)
    ensures Finds(db, RestoreStep(s))
  {}

  lemma TaskFinds(db: DB, s: TaskOp)
    requires TaskAllowed(db, s)
    ensures Finds(db, TaskStep(s))
  {}

  lemma StepFinds(db: DB, s: Step)
    requires Allowed(db, s)
    ensures Finds(db, s)
  {
    hide TaskAllowed, PairAllowed, DispatchAllowed, ExecutionAllowed, StopAllowed, RestoreAllowed, FindsTarget;
    match s
    case TaskStep(t) => TaskFinds(db, t);
    case PairStep(t) => PairFinds(db, t);
    case DispatchStep(t) => DispatchFinds(db, t);
    case ExecutionStep(_) =>
    case StopStep(t) => StopFinds(db, t);
    case RestoreStep(t) => RestoreFinds(db, t);
  }

  /** What most proofs need of a step: what it finds, its rows, and what it keeps. */
  ghost predicate Moves(db: DB, s: Step, e: DB) {
    Finds(db, s) && PairRows(db, s, e) && OperationRows(db, s, e) && History.Kept(db, e)
  }

  lemma StepMoves(db: DB, s: Step)
    requires Allowed(db, s)
    ensures Moves(db, s, Effect(db, s))
  {
    hide Allowed, Effect, Finds, LineageRows, PairRows, OperationRows, LogAfter, History.Kept;
    StepFinds(db, s);
    StepRows(db, s);
    History.StepHistory(db, s);
  }
}
