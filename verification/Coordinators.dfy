/** The four coordinator calls that reach AO, statement by statement: Provision, Restore and
    Dispatch (internal/dispatch/coordinator.go) and Start/StartTimeout (internal/stop/coordinator.go).

    A caller is its request and a program counter. At each one it takes its next turn: a
    transaction, a read, a question to AO or to the operator boundary, or its one external call.
    The environment answers every turn as it likes, and other callers run in between. */
module Coordinators {
  import opened Domain
  import opened DispatchTransactions
  import opened StopTransactions
  import opened Steps
  import opened SweepRest
  import Containment
  import Protocol

  type Call = Protocol.Call

  /** What became of a transaction. Lost is a commit that the caller saw fail. */
  datatype Commit = Done | Lost | Refused

  /** What came back from an external call; errors and replies without the fields they need
      are NoAnswer. */
  datatype Result =
    | Created(session: Id, gen: Id, terminated: bool)
    | Resumed(named: Id, session: Id, gen: Id)
    | Accepted(session: Id)
    | TargetMissing | Rejected | NoAnswer

  datatype Reply =
    | Stored(commit: Commit, at: Time)
    | Read(ok: bool)
    | Status(answer: Answer, now: Time)
    | Principal(verified: Option<Id>)
    | Scope(granted: bool)
    | Back(result: Result)

  datatype Turn = Commits(s: Step) | Reads | Observes | Verifies | Acquires(pair: Id) | Calls(call: Call) | Finished

  predicate Fits(turn: Turn, reply: Reply) {
    match turn
    case Commits(_) => reply.Stored?
    case Reads => reply.Read?
    case Observes => reply.Status?
    case Verifies => reply.Principal?
    case Acquires(_) => reply.Scope?
    case Calls(_) => reply.Back?
    case Finished => false
  }

  /** The clock a transaction is given. */
  function At(reply: Reply): Time { if reply.Stored? then reply.at else 0 }

  // --- Provision -----------------------------------------------------------------------------

  datatype ProvisionPc =
    | ReservePair | CreateSession | FailCreate | ConfirmCreate(session: Id, gen: Id) | RereadCreate(session: Id)
    | ProvisionEnd(created: Option<Id>)

  function ProvisionTurn(op: Id, pair: Id, pc: ProvisionPc): Turn {
    match pc
    case ReservePair => Commits(PairStep(ReserveProvision(op, pair)))
    case CreateSession => Calls(Protocol.Create(op))
    case FailCreate => Commits(PairStep(FailProvision(op)))
    case ConfirmCreate(session, gen) => Commits(PairStep(ConfirmProvision(op, pair, Session(session, gen, SessionIdle, false))))
    case RereadCreate(_) => Reads
    case ProvisionEnd(_) => Finished
  }

  function ProvisionNext(op: Id, pair: Id, pc: ProvisionPc, reply: Reply, db: DB): ProvisionPc
    requires Fits(ProvisionTurn(op, pair, pc), reply)
  {
    match pc
    case ReservePair => if reply.commit.Done? then CreateSession else ProvisionEnd(None)
    case CreateSession =>
      if reply.result.Created? && !reply.result.terminated then ConfirmCreate(reply.result.session, reply.result.gen) else FailCreate
    case FailCreate => ProvisionEnd(None)
    case ConfirmCreate(session, _) => if reply.commit.Done? then ProvisionEnd(Some(session)) else RereadCreate(session)
    case RereadCreate(session) =>
      if reply.ok && op in db.provisions && db.provisions[op].stage.ProvisionConfirmed? && db.provisions[op].session == Some(session)
      then ProvisionEnd(Some(session)) else ProvisionEnd(None)
  }

  // --- Restore --------------------------------------------------------------------------------

  datatype RestorePc =
    | AuthorizeRestore | ReserveResume | ResumeWorker | ObserveResumed(gen: Id) | ConfirmResume(gen: Id, status: SessionStatus)
    | RereadRestore(gen: Id) | MarkUnknown | RestoreEnd(restored: Option<Id>)

  function StatusOf(activity: Activity): SessionStatus {
    match activity
    case ActivityIdle => SessionIdle
    case ActivityWaitingInput => SessionIdle
    case ActivityActive => SessionActive
    case ActivityBlocked => SessionActive
    case ActivityExited => SessionTerminated
  }

  function RestoreTurn(op: Id, tuple: RestoreTuple, pc: RestorePc, at: Time): Turn {
    match pc
    case AuthorizeRestore => Verifies
    case ReserveResume => Commits(RestoreStep(ReserveRestore(op, tuple)))
    case ResumeWorker => Calls(Protocol.Resume(op))
    case ObserveResumed(_) => Observes
    case ConfirmResume(gen, status) => Commits(RestoreStep(ConfirmRestore(op, tuple.session, tuple.expected, gen, status, at)))
    case RereadRestore(_) => Reads
    case MarkUnknown => Commits(RestoreStep(UnknownRestore(op)))
    case RestoreEnd(_) => Finished
  }

  function RestoreNext(op: Id, tuple: RestoreTuple, pc: RestorePc, reply: Reply, db: DB): RestorePc
    requires Fits(RestoreTurn(op, tuple, pc, At(reply)), reply)
  {
    match pc
    case AuthorizeRestore => if reply.verified.Some? then ReserveResume else RestoreEnd(None)
    case ReserveResume => if reply.commit.Done? then ResumeWorker else RestoreEnd(None)
    case ResumeWorker =>
      if reply.result.Resumed? && reply.result.named == tuple.session && reply.result.session == tuple.session
      then ObserveResumed(reply.result.gen) else MarkUnknown
    case ObserveResumed(gen) =>
      if reply.answer.AoStatus? && reply.answer.session == tuple.session && reply.answer.gen == gen
      then ConfirmResume(gen, StatusOf(reply.answer.activity)) else MarkUnknown
    case ConfirmResume(gen, _) => if reply.commit.Done? then RestoreEnd(Some(gen)) else RereadRestore(gen)
    case RereadRestore(gen) =>
      if !reply.ok || op !in db.restores then RestoreEnd(None)
      else if db.restores[op].stage.RestoreConfirmed? && db.restores[op].http200At.Some? && db.restores[op].observed == Some(gen) then RestoreEnd(Some(gen))
      else if db.restores[op].resolution.RestoreInFlight? then MarkUnknown
      else RestoreEnd(None)
    case MarkUnknown => RestoreEnd(None)
  }

  // --- Dispatch ---------------------------------------------------------------------------------

  datatype DispatchRequest = DispatchRequest(bind: Allocation, duration: int, policy: Id)

  datatype DispatchPc =
    | LoadTask | PrepareAttempt | LoadAttempt(task: Task) | LoadOperation(task: Task, attempt: Attempt)
    | ObserveBefore | HoldBefore(hold: Disposition) | CloseBefore(why: Disposition) | RejectBefore(activity: Activity)
    | RequestIntent(activity: Activity) | SendPrompt | ConfirmDelivery
    | RereadOperation | RereadTask(row: Dispatch) | RereadAttempt(row: Dispatch, task: Task) | RereadAudit(row: Dispatch, task: Task, attempt: Attempt)
    | ContainDelivery | DispatchEnd(ok: bool)

  function DispatchTurn(rq: DispatchRequest, pc: DispatchPc, at: Time): Turn {
    var x := rq.bind;
    match pc
    case PrepareAttempt => Commits(DispatchStep(Prepare(x)))
    case ObserveBefore => Observes
    case HoldBefore(hold) => Commits(DispatchStep(Hold(x.op, hold)))
    case CloseBefore(why) => Commits(ExecutionStep(Terminal(x.task, Dispatched, x.attempt, why, at)))
    case RejectBefore(activity) => Commits(DispatchStep(Reject(x.op, activity)))
    case RequestIntent(activity) => Commits(DispatchStep(RequestSend(x.op, Observation(x.session, x.gen, false), activity)))
    case SendPrompt => Calls(Protocol.Send(x.op))
    case ConfirmDelivery => Commits(DispatchStep(ConfirmSend(x.op, true, at, rq.duration, rq.policy)))
    case ContainDelivery => Commits(DispatchStep(UnknownDelivery(x.op, at)))
    case DispatchEnd(_) => Finished
    case _ => Reads
  }

  /** The rows of an earlier, interrupted Dispatch that has not requested its send. */
  predicate Retries(x: Allocation, task: Task, attempt: Attempt, row: Dispatch) {
    && task.current == attempt.lineage.number && attempt.ended.None?
    && attempt.lineage.task == x.task && attempt.lineage.contract == x.contract
    && attempt.lineage.session == x.session && attempt.lineage.gen == x.gen
    && row.bound.attempt == x.attempt && row.stage.DispatchBound?
  }

  function AfterStatus(x: Allocation, answer: Answer): DispatchPc {
    match answer
    case AoNotFound => CloseBefore(SessionAbsent)
    case AoProtocolError => HoldBefore(PreSendProtocolUnverified)
    case AoUnavailable => HoldBefore(RecoveryPending)
    case AoEmpty => HoldBefore(PreSendProtocolUnverified)
    case AoStatus(session, gen, activity, terminated) =>
      if session != x.session then CloseBefore(PreSendIdentityMismatch)
      else if gen != x.gen then CloseBefore(StaleExecutionGeneration)
      else if terminated then CloseBefore(WorkerTerminationUnknown)
      else if !activity.ActivityIdle? && !activity.ActivityWaitingInput? then RejectBefore(activity)
      else RequestIntent(activity)
  }

  /** containAmbiguousSend, once it has read the tuple and the audit events. The re-read after
      the containment only chooses the words of the error. */
  function AfterReread(x: Allocation, row: Dispatch, task: Task, attempt: Attempt, found: Containment.Found): DispatchPc {
    if row.bound.attempt != x.attempt || attempt.lineage.task != row.bound.task || task.pair != row.bound.pair || task.current != attempt.lineage.number
      then DispatchEnd(false)
    else if row.stage.SendConfirmed? && found.confirmed then DispatchEnd(true)
    else if Containment.ContainedTuple(row, found) then DispatchEnd(false)
    else if !row.stage.SendRequested? || row.unknown || attempt.ended.Some? || !task.state.Dispatched? || !found.requested
            || attempt.lineage.session != row.bound.session || attempt.lineage.gen != row.bound.gen
      then DispatchEnd(false)
    else ContainDelivery
  }

  function DispatchNext(rq: DispatchRequest, pc: DispatchPc, reply: Reply, db: DB): DispatchPc
    requires Fits(DispatchTurn(rq, pc, At(reply)), reply)
  {
    var x := rq.bind;
    match pc
    case LoadTask =>
      if !reply.ok || x.task !in db.tasks then DispatchEnd(false)
      else if db.tasks[x.task].state.Ready? then PrepareAttempt
      else if db.tasks[x.task].state.Dispatched? then LoadAttempt(db.tasks[x.task])
      else DispatchEnd(false)
    case PrepareAttempt => if reply.commit.Done? then ObserveBefore else DispatchEnd(false)
    case LoadAttempt(task) => if reply.ok && x.attempt in db.attempts then LoadOperation(task, db.attempts[x.attempt]) else DispatchEnd(false)
    case LoadOperation(task, attempt) =>
      if reply.ok && x.op in db.dispatches && Retries(x, task, attempt, db.dispatches[x.op]) then ObserveBefore else DispatchEnd(false)
    case ObserveBefore => AfterStatus(x, reply.answer)
    case RequestIntent(_) => if reply.commit.Done? then SendPrompt else DispatchEnd(false)
    case SendPrompt => if reply.result == Accepted(x.session) then ConfirmDelivery else RereadOperation
    case ConfirmDelivery => if reply.commit.Done? then DispatchEnd(true) else RereadOperation
    case RereadOperation => if reply.ok && x.op in db.dispatches then RereadTask(db.dispatches[x.op]) else DispatchEnd(false)
    case RereadTask(row) => if reply.ok && row.bound.task in db.tasks then RereadAttempt(row, db.tasks[row.bound.task]) else DispatchEnd(false)
    case RereadAttempt(row, task) => if reply.ok && x.attempt in db.attempts then RereadAudit(row, task, db.attempts[x.attempt]) else DispatchEnd(false)
    case RereadAudit(row, task, attempt) =>
      if reply.ok then AfterReread(x, row, task, attempt, Containment.FoundIn(db.log, x.op, row.bound)) else DispatchEnd(false)
    case _ => DispatchEnd(false)
  }

  // --- Start and StartTimeout ----------------------------------------------------------------------

  /** timed is StartTimeout; actor is the principal the request names before any is verified. */
  datatype StopRequest = StopRequest(op: Id, target: StopTarget, timed: bool, actor: Id, killTimeout: int)

  datatype StopPc =
    | AcquireScope | Preflight | VerifyOperator | ObserveClaim(principal: Id) | ReserveIntent(principal: Id, seen: Option<Observation>)
    | ObserveTarget | ValidateOwner | KillWorker | AcceptCall | RereadStop | RereadAccepted | ObserveAccepted(deadline: Time)
    | SettleStop(expected: StopStage, stage: StopStage, resolution: Resolution, seen: Option<Observation>, report: bool)
    | StopEnd(ok: bool) | StopDenied

  function FirstPc(rq: StopRequest): StopPc {
    if rq.timed then AcquireScope
    else if rq.target.purpose.RunningAttemptStop? then ReserveIntent(rq.actor, None)
    else VerifyOperator
  }

  function StopTurn(rq: StopRequest, pc: StopPc, at: Time): Turn {
    var t := rq.target;
    match pc
    case AcquireScope => Acquires(t.pair)
    case VerifyOperator => Verifies
    case ReserveIntent(principal, seen) =>
      Commits(if t.restore.Some? then RestoreStep(ClaimCleanup(rq.op, t, principal, seen)) else StopStep(ReserveStop(rq.op, t)))
    case ValidateOwner => Reads
    case KillWorker => Calls(Protocol.Kill(rq.op))
    case AcceptCall => Commits(StopStep(CallAccepted(rq.op, at, at + rq.killTimeout)))
    case RereadStop => Reads
    case RereadAccepted => Reads
    case SettleStop(expected, stage, resolution, seen, _) => Commits(StopStep(CommitOutcome(rq.op, Outcome(expected, stage, resolution, at, seen))))
    case StopEnd(_) => Finished
    case StopDenied => Finished
    case _ => Observes
  }

  /** The one worker the request names, alive. */
  predicate SeesTarget(t: StopTarget, answer: Answer) {
    answer.AoStatus? && answer.session == t.session && answer.gen == t.gen && !answer.terminated
  }

  predicate Interruptible(activity: Activity) { activity.ActivityActive? || activity.ActivityWaitingInput? }

  /** Between the intent and the kill. */
  function BeforeKill(rq: StopRequest, answer: Answer): StopPc {
    match answer
    case AoNotFound => SettleStop(StopRequested, StopTargetAbsent, TargetAbsent, None, true)
    case AoStatus(session, gen, activity, terminated) =>
      var seen := Some(Observation(session, gen, terminated));
      if session != rq.target.session then StopEnd(false)
      else if gen != rq.target.gen then SettleStop(StopRequested, StopRequested, GenerationMismatch, seen, true)
      else if terminated then SettleStop(StopRequested, StopRequested, EffectUnproven, seen, true)
      else if !rq.timed then KillWorker
      else if Interruptible(activity) then ValidateOwner
      else StopEnd(false)
    case _ => StopEnd(false)
  }

  /** What the kill call brought back. */
  function AfterKill(rq: StopRequest, result: Result): StopPc {
    if result == Accepted(rq.target.session) then AcceptCall
    else if result.TargetMissing? then SettleStop(StopRequested, StopTargetAbsent, TargetAbsent, None, false)
    else if result.Rejected? then SettleStop(StopRequested, StopCallFailed, CallFailed, None, false)
    else SettleStop(StopRequested, StopRequested, CallOutcomeUnknown, None, false)
  }

  /** Observe: one status after an accepted kill. */
  function AfterAccepted(rq: StopRequest, deadline: Time, answer: Answer, now: Time): StopPc {
    match answer
    case AoNotFound => SettleStop(StopCallSucceeded, StopTargetAbsent, TargetAbsent, None, true)
    case AoEmpty => StopEnd(false)
    case AoStatus(session, gen, _, terminated) =>
      var seen := Some(Observation(session, gen, terminated));
      if session != rq.target.session then StopEnd(false)
      else if gen != rq.target.gen then SettleStop(StopCallSucceeded, StopCallSucceeded, GenerationMismatch, seen, true)
      else if now >= deadline then SettleStop(StopCallSucceeded, StopCallSucceeded, ConfirmationTimeout, seen, true)
      else if terminated then SettleStop(StopCallSucceeded, StopTerminationConfirmed, TerminationConfirmed, seen, true)
      else StopEnd(true)
    case _ => if now >= deadline then SettleStop(StopCallSucceeded, StopCallSucceeded, ConfirmationTimeout, None, true) else StopEnd(false)
  }

  function StopNext(rq: StopRequest, pc: StopPc, reply: Reply, db: DB): StopPc
    requires Fits(StopTurn(rq, pc, At(reply)), reply)
  {
    match pc
    case AcquireScope => if reply.granted then Preflight else StopDenied
    case Preflight => if SeesTarget(rq.target, reply.answer) && Interruptible(reply.answer.activity) then ReserveIntent(rq.actor, None) else StopEnd(false)
    case VerifyOperator =>
      if reply.verified.None? then StopEnd(false)
      else if rq.target.restore.Some? && rq.target.purpose.PairMaintenance? then ObserveClaim(reply.verified.value)
      else ReserveIntent(reply.verified.value, None)
    case ObserveClaim(principal) =>
      if SeesTarget(rq.target, reply.answer) then ReserveIntent(principal, Some(Observation(rq.target.session, rq.target.gen, false))) else StopEnd(false)
    case ReserveIntent(_, _) => if reply.commit.Done? then ObserveTarget else StopEnd(false)
    case ObserveTarget => BeforeKill(rq, reply.answer)
    case ValidateOwner => if reply.ok && TimeoutEffectOwner(db, rq.op) then KillWorker else StopEnd(false)
    case KillWorker => AfterKill(rq, reply.result)
    case AcceptCall => if reply.commit.Done? then RereadAccepted else RereadStop
    case RereadStop =>
      if reply.ok && Protocol.Unanswered(db, rq.op) then SettleStop(StopRequested, StopRequested, CallOutcomeUnknown, None, false) else StopEnd(false)
    case RereadAccepted =>
      if reply.ok && rq.op in db.stops && db.stops[rq.op].stage.StopCallSucceeded? && db.stops[rq.op].resolution.InFlight? && db.stops[rq.op].deadline.Some?
      then ObserveAccepted(db.stops[rq.op].deadline.value) else StopEnd(false)
    case ObserveAccepted(deadline) => AfterAccepted(rq, deadline, reply.answer, reply.now)
    case SettleStop(_, _, _, _, report) => StopEnd(report && reply.commit.Done?)
  }

  // --- callers -----------------------------------------------------------------------------------------

  datatype Caller =
    | Provisioning(op: Id, pair: Id, provision: ProvisionPc)
    | Restoring(op: Id, tuple: RestoreTuple, restore: RestorePc)
    | Dispatching(dispatch: DispatchRequest, send: DispatchPc)
    | Stopping(stop: StopRequest, kill: StopPc)

  /** A call as its coordinator admits it: Start refuses a TIMEOUT cause, StartTimeout takes only
      a live attempt and sets the cause itself, Dispatch wants a budget. */
  predicate Initial(c: Caller) {
    match c
    case Provisioning(_, _, pc) => pc.ReservePair?
    case Restoring(_, _, pc) => pc.AuthorizeRestore?
    case Dispatching(rq, pc) => pc.LoadTask? && rq.duration > 0
    case Stopping(rq, pc) =>
      && pc == FirstPc(rq) && rq.killTimeout > 0 && rq.target.timeout == rq.timed
      && (rq.timed ==> rq.target.purpose.RunningAttemptStop? && rq.target.lineage.Some?)
  }

  function TurnOf(c: Caller, at: Time): Turn {
    match c
    case Provisioning(op, pair, pc) => ProvisionTurn(op, pair, pc)
    case Restoring(op, tuple, pc) => RestoreTurn(op, tuple, pc, at)
    case Dispatching(rq, pc) => DispatchTurn(rq, pc, at)
    case Stopping(rq, pc) => StopTurn(rq, pc, at)
  }

  function NextOf(c: Caller, reply: Reply, db: DB): Caller
    requires Fits(TurnOf(c, At(reply)), reply)
  {
    match c
    case Provisioning(op, pair, pc) => Provisioning(op, pair, ProvisionNext(op, pair, pc, reply, db))
    case Restoring(op, tuple, pc) => Restoring(op, tuple, RestoreNext(op, tuple, pc, reply, db))
    case Dispatching(rq, pc) => Dispatching(rq, DispatchNext(rq, pc, reply, db))
    case Stopping(rq, pc) => Stopping(rq, StopNext(rq, pc, reply, db))
  }

  /** The Pair scope a StartTimeout holds until it returns. */
  function LockOf(c: Caller): Option<Id> {
    if c.Stopping? && c.stop.timed && !c.kill.AcquireScope? && !c.kill.StopDenied? then Some(c.stop.target.pair) else None
  }

  // --- the host -------------------------------------------------------------------------------------------

  /** One supervisor process: its database, the callers inside it, the scopes they hold, and
      every external call made so far. */
  datatype Host = Host(db: DB, callers: map<Id, Caller>, holders: map<Id, Id>, scanning: bool, calls: seq<Call>)

  datatype Action =
    | Other(s: Step)
    | Sweep(s: Step)
    | Begin(f: Id, c: Caller)
    | Advance(f: Id, reply: Reply)
    | Leave(f: Id)
    | OpenSweep
    | CloseSweep
    | CrashHost

  predicate Possible(h: Host, m: Action) {
    match m
    case Other(s) => Allowed(h.db, s) && SagaStep(s) && Protocol.BackgroundStep(s)
    case Sweep(s) => h.scanning && Allowed(h.db, s) && SagaStep(s)
    case Begin(f, c) => f !in h.callers && Initial(c)
    case Advance(f, reply) =>
      && f in h.callers
      && var turn := TurnOf(h.callers[f], At(reply));
      && Fits(turn, reply)
      && (turn.Commits? && !reply.commit.Refused? ==> Allowed(h.db, turn.s))
      && (turn.Acquires? && reply.granted ==> !h.scanning && turn.pair !in h.holders)
    case Leave(f) => f in h.callers && TurnOf(h.callers[f], 0).Finished?
    case OpenSweep => !h.scanning && h.holders == map[]
    case CloseSweep => h.scanning
    case CrashHost => true
  }

  function Advanced(h: Host, f: Id, reply: Reply): Host
    requires Possible(h, Advance(f, reply))
  {
    var c := h.callers[f];
    var turn := TurnOf(c, At(reply));
    Host(if turn.Commits? && !reply.commit.Refused? then Effect(h.db, turn.s) else h.db,
         h.callers[f := NextOf(c, reply, h.db)],
         if turn.Acquires? && reply.granted then h.holders[turn.pair := f] else h.holders,
         h.scanning,
         if turn.Calls? then h.calls + [turn.call] else h.calls)
  }

  function Left(h: Host, f: Id): Host
    requires f in h.callers
  {
    var lock := LockOf(h.callers[f]);
    h.(callers := h.callers - {f}, holders := if lock.Some? then h.holders - {lock.value} else h.holders)
  }

  function Then(h: Host, m: Action): Host
    requires Possible(h, m)
  {
    match m
    case Other(s) => h.(db := Effect(h.db, s))
    case Sweep(s) => h.(db := Effect(h.db, s))
    case Begin(f, c) => h.(callers := h.callers[f := c])
    case Advance(f, reply) => Advanced(h, f, reply)
    case Leave(f) => Left(h, f)
    case OpenSweep => h.(scanning := true)
    case CloseSweep => h.(scanning := false)
    case CrashHost => h.(callers := map[], holders := map[], scanning := false)
  }

  const COLD := Host(EMPTY_DB, map[], map[], false, [])

  ghost predicate ActionAt(states: seq<Host>, actions: seq<Action>, i: int) {
    0 <= i < |actions| && i + 1 < |states| && Possible(states[i], actions[i]) && states[i + 1] == Then(states[i], actions[i])
  }

  /** Any interleaving of any callers, other writers, sweeps and crashes, from an empty database. */
  ghost predicate HostRun(states: seq<Host>, actions: seq<Action>) {
    && |states| == |actions| + 1
    && states[0] == COLD
    && forall i | 0 <= i < |actions| :: ActionAt(states, actions, i)
  }
}
