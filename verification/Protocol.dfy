/** The coordinators as concurrent frames over the store and an unreliable AO.

    A coordinator call is a frame: it commits a durable intent, and only the frame that saw
    that commit succeed holds a one-use permit for the external call. Everything else that
    writes the store (other coordinators, the poller, operators, a commit whose caller saw an
    error) is a background step; the recovery scan runs under the host's global scope; a
    crash drops every frame and every host lock and keeps the database. AO answers anything:
    a frame may return, or commit any outcome the store admits, at any moment. */
module Protocol {
  import opened Domain
  import opened Tables
  import opened StopTransactions
  import opened Invariants
  import opened History
  import opened Steps
  import SagaProofs
  import RowEffects
  import Runs
  import StopTargets

  // --- effects and their intents --------------------------------------------------------

  /** The four external calls, each named by the operation whose intent authorises it. */
  datatype Call = Create(op: Id) | Send(op: Id) | Kill(op: Id) | Resume(op: Id)

  /** The intent of the call is durable. */
  predicate Committed(db: DB, c: Call) {
    match c
    case Create(op) => op in db.provisions
    case Send(op) => op in db.dispatches && !db.dispatches[op].stage.DispatchBound?
    case Kill(op) => op in db.stops
    case Resume(op) => op in db.restores
  }

  /** The call a transaction is the intent of. */
  function Intends(s: Step): Option<Call> {
    if s.PairStep? && s.pair.ReserveProvision? then Some(Create(s.pair.op))
    else if s.DispatchStep? && s.dispatch.RequestSend? then Some(Send(s.dispatch.op))
    else if s.StopStep? && s.stop.ReserveStop? then Some(Kill(s.stop.op))
    else if s.RestoreStep? && s.restore.ClaimCleanup? then Some(Kill(s.restore.op))
    else if s.RestoreStep? && s.restore.ReserveRestore? then Some(Resume(s.restore.op))
    else None
  }

  lemma IntentIsFresh(db: DB, s: Step, e: DB)
    requires RowEffects.Moves(db, s, e) && Intends(s).Some?
    ensures !Committed(db, Intends(s).value) && Committed(e, Intends(s).value)
  {
    hide Kept, RowEffects.MoreRisk;
    var op := Intends(s).value.op;
    assert RowEffects.Row(e.dispatches, op) == RowEffects.DispatchAfter(db, s, op) && RowEffects.Row(e.stops, op) == RowEffects.StopAfter(db, s, op);
    assert RowEffects.Row(e.restores, op) == RowEffects.RestoreAfter(db, s, op) && RowEffects.Row(e.provisions, op) == RowEffects.ProvisionAfter(db, s, op);
  }

  /** A durable intent stays durable. */
  lemma CommittedStays(db: DB, s: Step, e: DB, c: Call)
    requires RowEffects.Moves(db, s, e) && Committed(db, c)
    ensures Committed(e, c)
  {
    hide LineagesKept, RowEffects.OperationRows, RowEffects.MoreRisk;
    if c.Create? { assert RowEffects.Row(e.provisions, c.op) == RowEffects.ProvisionAfter(db, s, c.op); }
    if c.Send? { assert DispatchForward(db.dispatches[c.op], e.dispatches[c.op]); }
  }

  // --- frames ---------------------------------------------------------------------------------

  /** lock is the Pair scope a StartTimeout frame holds; permit is the one call the frame may
      still make; owns is the stop it reserved. */
  datatype Frame = Frame(lock: Option<Id>, permit: Option<Call>, owns: Option<Id>, validated: bool)

  datatype System = System(db: DB, frames: map<Id, Frame>, holders: map<Id, Id>, scanning: bool, calls: seq<Call>)

  datatype Move =
    | Background(s: Step)
    | Scan(s: Step)
    | Owner(f: Id, s: Step)
    | Enter(f: Id)
    | Admit(f: Id, pair: Id)
    | Arm(f: Id, s: Step)
    | Validate(f: Id)
    | Fire(f: Id)
    | Waive(f: Id)
    | Return(f: Id)
    | StartScan
    | EndScan
    | Crash

  /** The row of a stop whose kill has not been answered yet. */
  predicate Unanswered(db: DB, op: Id) {
    op in db.stops && db.stops[op].stage.StopRequested? && db.stops[op].resolution.InFlight?
  }

  /** What production code outside a stop's own frame and the scan asks of the stop table: new
      reservations, acceptances of settled risk, and outcomes that expect STOP_CALL_SUCCEEDED
      (Observe, internal/stop/coordinator.go:216-251; the poller, which skips STOP_REQUESTED,
      internal/recovery/poller.go:149-157). */
  predicate BackgroundStep(s: Step) {
    s.StopStep? ==>
      match s.stop
      case ReserveStop(_, _) => true
      case AcceptRisk(_) => true
      case CommitOutcome(_, o) => o.expected.StopCallSucceeded?
      case _ => false
  }

  predicate LeavesUnanswered(db: DB, s: Step) {
    forall op | op in db.stops :: Unanswered(db, op) ==> !StopTargets.Addresses(s, op)
  }

  /** So only its own frame and the scan ever write an unanswered stop. */
  lemma BackgroundLeavesUnanswered(db: DB, s: Step)
    requires Allowed(db, s) && BackgroundStep(s)
    ensures LeavesUnanswered(db, s)
  {
    hide TaskAllowed, PairAllowed, DispatchAllowed, ExecutionAllowed, RestoreAllowed;
  }

  /** Start refuses a TIMEOUT cause; StartTimeout reserves one on the Pair it locked. */
  predicate ReservesFor(s: Step, lock: Option<Id>) {
    match lock
    case None => s.StopStep? && s.stop.ReserveStop? ==> !s.stop.target.timeout
    case Some(pair) => s.StopStep? && s.stop.ReserveStop? && s.stop.target.timeout && s.stop.target.pair == pair
  }

  predicate Enabled(sys: System, m: Move) {
    match m
    case Background(s) => Allowed(sys.db, s) && SagaStep(s) && BackgroundStep(s)
    case Scan(s) => sys.scanning && Allowed(sys.db, s) && SagaStep(s)
    case Owner(f, s) =>
      && f in sys.frames && sys.frames[f].owns.Some? && StopTargets.Addresses(s, sys.frames[f].owns.value)
      && Allowed(sys.db, s) && SagaStep(s)
    case Enter(f) => f !in sys.frames
    case Admit(f, pair) => f in sys.frames && sys.frames[f] == FRESH && !sys.scanning && pair !in sys.holders
    case Arm(f, s) =>
      && f in sys.frames && sys.frames[f].permit.None? && sys.frames[f].owns.None?
      && Allowed(sys.db, s) && SagaStep(s) && Intends(s).Some? && ReservesFor(s, sys.frames[f].lock)
    case Validate(f) => f in sys.frames && sys.frames[f].owns.Some? && TimeoutEffectOwner(sys.db, sys.frames[f].owns.value)
    case Fire(f) => f in sys.frames && sys.frames[f].permit.Some? && (sys.frames[f].lock.Some? ==> sys.frames[f].validated)
    case Waive(f) => f in sys.frames
    case Return(f) => f in sys.frames
    case StartScan => !sys.scanning && sys.holders == map[]
    case EndScan => sys.scanning
    case Crash => true
  }

  function Written(sys: System, f: Id, e: DB, permit: Option<Call>, owns: Option<Id>): System
    requires f in sys.frames
  {
    sys.(db := e, frames := sys.frames[f := sys.frames[f].(permit := permit, owns := owns)])
  }

  const FRESH := Frame(None, None, None, false)

  function Entered(sys: System, f: Id): System { sys.(frames := sys.frames[f := FRESH]) }

  function Admitted(sys: System, f: Id, pair: Id): System {
    sys.(frames := sys.frames[f := FRESH.(lock := Some(pair))], holders := sys.holders[pair := f])
  }

  function Fired(sys: System, f: Id): System
    requires f in sys.frames && sys.frames[f].permit.Some?
  {
    sys.(frames := sys.frames[f := sys.frames[f].(permit := None)], calls := sys.calls + [sys.frames[f].permit.value])
  }

  function Returned(sys: System, f: Id): System
    requires f in sys.frames
  {
    sys.(frames := sys.frames - {f},
         holders := if sys.frames[f].lock.Some? then sys.holders - {sys.frames[f].lock.value} else sys.holders)
  }

  function KillOwned(c: Call): Option<Id> { if c.Kill? then Some(c.op) else None }

  function Next(sys: System, m: Move): System
    requires Enabled(sys, m)
  {
    match m
    case Background(s) => sys.(db := Effect(sys.db, s))
    case Scan(s) => sys.(db := Effect(sys.db, s))
    case Owner(f, s) => Written(sys, f, Effect(sys.db, s), None, sys.frames[f].owns)
    case Enter(f) => Entered(sys, f)
    case Admit(f, pair) => Admitted(sys, f, pair)
    case Arm(f, s) => Written(sys, f, Effect(sys.db, s), Intends(s), KillOwned(Intends(s).value))
    case Validate(f) => sys.(frames := sys.frames[f := sys.frames[f].(validated := true)])
    case Fire(f) => Fired(sys, f)
    case Waive(f) => Written(sys, f, sys.db, None, sys.frames[f].owns)
    case Return(f) => Returned(sys, f)
    case StartScan => sys.(scanning := true)
    case EndScan => sys.(scanning := false)
    case Crash => sys.(frames := map[], holders := map[], scanning := false)
  }

  // --- the one-use permits -----------------------------------------------------------------------

  /** A permit is backed by a durable intent, is held by one frame and has not been used. */
  predicate PermitsFresh(sys: System) {
    && (forall f | f in sys.frames && sys.frames[f].permit.Some? ::
          Committed(sys.db, sys.frames[f].permit.value) && sys.frames[f].permit.value !in sys.calls)
    && (forall f, g | f in sys.frames && g in sys.frames && sys.frames[f].permit.Some? ::
          sys.frames[f].permit == sys.frames[g].permit ==> f == g)
  }

  /** Every call was made once, after its intent was durable. */
  predicate CallsOnce(sys: System) {
    && (forall i | 0 <= i < |sys.calls| :: Committed(sys.db, sys.calls[i]))
    && forall i, j | 0 <= i < j < |sys.calls| :: sys.calls[i] != sys.calls[j]
  }

  /** Host scopes: a Pair scope belongs to one frame, and the scan excludes all of them. */
  predicate ScopesHeld(sys: System) {
    && (forall f | f in sys.frames && sys.frames[f].lock.Some? ::
          sys.frames[f].lock.value in sys.holders && sys.holders[sys.frames[f].lock.value] == f)
    && (sys.scanning ==> sys.holders == map[])
  }

  /** A stop belongs to the frame that reserved it. */
  predicate StopsOwned(sys: System) {
    && (forall f | f in sys.frames && sys.frames[f].owns.Some? :: sys.frames[f].owns.value in sys.db.stops)
    && (forall f, g | f in sys.frames && g in sys.frames && sys.frames[f].owns.Some? :: sys.frames[f].owns == sys.frames[g].owns ==> f == g)
  }

  /** A timeout frame that may still kill has an unanswered live stop on the Pair it locked. */
  predicate TimeoutFrame(db: DB, fr: Frame) {
    fr.lock.Some? && fr.permit.Some? ==>
      && fr.owns.Some? && fr.permit == Some(Kill(fr.owns.value))
      && Unanswered(db, fr.owns.value)
      && db.stops[fr.owns.value].target.purpose.RunningAttemptStop?
      && db.stops[fr.owns.value].target.pair == fr.lock.value
  }

  predicate TimeoutsOwned(sys: System) {
    forall f | f in sys.frames :: TimeoutFrame(sys.db, sys.frames[f])
  }

  ghost predicate ProtocolInv(sys: System) {
    && SagaInv(sys.db)
    && PermitsFresh(sys) && CallsOnce(sys) && ScopesHeld(sys) && StopsOwned(sys) && TimeoutsOwned(sys)
  }

  // --- every move keeps the protocol invariant ------------------------------------------------------

  /** What a store step does to the parts that frames and calls rely on. */
  lemma CallsSurvive(sys: System, s: Step, e: DB)
    requires PermitsFresh(sys) && CallsOnce(sys) && StopsOwned(sys) && RowEffects.Moves(sys.db, s, e)
    ensures PermitsFresh(sys.(db := e)) && CallsOnce(sys.(db := e)) && StopsOwned(sys.(db := e))
  {
    hide Committed, LineagesKept, RowEffects.Finds, RowEffects.PairRows, RowEffects.OperationRows;
    forall f | f in sys.frames && sys.frames[f].permit.Some? ensures Committed(e, sys.frames[f].permit.value) {
      CommittedStays(sys.db, s, e, sys.frames[f].permit.value);
    }
    forall i | 0 <= i < |sys.calls| ensures Committed(e, sys.calls[i]) {
      CommittedStays(sys.db, s, e, sys.calls[i]);
    }
  }

  /** A step that does not address the stops of the locked frames leaves them unanswered. */
  lemma TimeoutsSurvive(sys: System, s: Step, e: DB)
    requires TimeoutsOwned(sys) && RowEffects.Moves(sys.db, s, e)
    requires forall f | f in sys.frames && sys.frames[f].lock.Some? && sys.frames[f].permit.Some? && sys.frames[f].owns.Some? ::
               !StopTargets.Addresses(s, sys.frames[f].owns.value)
    ensures TimeoutsOwned(sys.(db := e))
  {
    hide Kept, RowEffects.Finds, RowEffects.PairRows, RowEffects.OperationRows;
    forall f | f in sys.frames && sys.frames[f].lock.Some? && sys.frames[f].permit.Some? ensures TimeoutFrame(e, sys.frames[f]) {
      assert TimeoutFrame(sys.db, sys.frames[f]);
      StopTargets.RowUnaddressed(sys.db, s, e, sys.frames[f].owns.value);
    }
  }

  lemma BackgroundKeeps(sys: System, s: Step)
    requires ProtocolInv(sys) && Allowed(sys.db, s) && SagaStep(s) && BackgroundStep(s)
    ensures ProtocolInv(sys.(db := Effect(sys.db, s)))
  {
    hide SagaInv, Allowed, Effect, SagaStep, BackgroundStep, RowEffects.Moves;
    RowEffects.StepMoves(sys.db, s);
    BackgroundLeavesUnanswered(sys.db, s);
    SagaProofs.StepKeepsSaga(sys.db, s);
    CallsSurvive(sys, s, Effect(sys.db, s));
    forall f | f in sys.frames && sys.frames[f].lock.Some? && sys.frames[f].permit.Some? && sys.frames[f].owns.Some?
      ensures !StopTargets.Addresses(s, sys.frames[f].owns.value)
    {
      assert TimeoutFrame(sys.db, sys.frames[f]);
    }
    TimeoutsSurvive(sys, s, Effect(sys.db, s));
  }

  /** The scan holds the global scope, so no timeout frame holds a Pair. */
  lemma ScanKeeps(sys: System, s: Step)
    requires ProtocolInv(sys) && sys.scanning && Allowed(sys.db, s) && SagaStep(s)
    ensures ProtocolInv(sys.(db := Effect(sys.db, s)))
  {
    hide SagaInv, Allowed, Effect, SagaStep, RowEffects.Moves;
    RowEffects.StepMoves(sys.db, s);
    SagaProofs.StepKeepsSaga(sys.db, s);
    CallsSurvive(sys, s, Effect(sys.db, s));
  }

  lemma OwnerKeeps(sys: System, f: Id, s: Step)
    requires ProtocolInv(sys) && f in sys.frames && sys.frames[f].owns.Some? && StopTargets.Addresses(s, sys.frames[f].owns.value)
    requires Allowed(sys.db, s) && SagaStep(s)
    ensures ProtocolInv(Written(sys, f, Effect(sys.db, s), None, sys.frames[f].owns))
  {
    hide SagaInv, Allowed, Effect, SagaStep, RowEffects.Moves;
    var e := Effect(sys.db, s);
    RowEffects.StepMoves(sys.db, s);
    var quiet := Written(sys, f, sys.db, None, sys.frames[f].owns);
    SagaProofs.StepKeepsSaga(sys.db, s);
    Quiet(sys, f);
    CallsSurvive(quiet, s, e);
    TimeoutsSurvive(quiet, s, e);
  }

  /** Giving up a permit. */
  lemma Quiet(sys: System, f: Id)
    requires PermitsFresh(sys) && CallsOnce(sys) && ScopesHeld(sys) && StopsOwned(sys) && TimeoutsOwned(sys) && f in sys.frames
    ensures var quiet := Written(sys, f, sys.db, None, sys.frames[f].owns);
      PermitsFresh(quiet) && CallsOnce(quiet) && ScopesHeld(quiet) && StopsOwned(quiet) && TimeoutsOwned(quiet)
  {
    hide Committed, Unanswered;
  }

  lemma ArmKeeps(sys: System, f: Id, s: Step)
    requires ProtocolInv(sys) && f in sys.frames && sys.frames[f].permit.None? && sys.frames[f].owns.None?
    requires Allowed(sys.db, s) && SagaStep(s) && Intends(s).Some? && ReservesFor(s, sys.frames[f].lock)
    ensures ProtocolInv(Written(sys, f, Effect(sys.db, s), Intends(s), KillOwned(Intends(s).value)))
  {
    hide SagaInv, Allowed, Effect, SagaStep, Committed, Intends, ReservesFor, RowEffects.Moves, RowEffects.Finds;
    var e := Effect(sys.db, s);
    RowEffects.StepMoves(sys.db, s);
    RowEffects.StepFinds(sys.db, s);
    SagaProofs.StepKeepsSaga(sys.db, s);
    IntentIsFresh(sys.db, s, e);
    CallsSurvive(sys, s, e);
    ArmedStop(sys.db, s, e, sys.frames[f].lock);
    forall g | g in sys.frames && sys.frames[g].owns.Some? ensures !StopTargets.Addresses(s, sys.frames[g].owns.value) {
      IntentAddressesNothing(sys.db, s, sys.frames[g].owns.value);
    }
    TimeoutsSurvive(sys, s, e);
    Armed(sys, f, e, Intends(s).value);
  }

  /** A fresh permit of a fresh intent. */
  lemma Armed(sys: System, f: Id, e: DB, c: Call)
    requires PermitsFresh(sys) && CallsOnce(sys) && ScopesHeld(sys) && StopsOwned(sys) && f in sys.frames
    requires sys.frames[f].permit.None? && sys.frames[f].owns.None?
    requires PermitsFresh(sys.(db := e)) && CallsOnce(sys.(db := e)) && StopsOwned(sys.(db := e)) && TimeoutsOwned(sys.(db := e))
    requires !Committed(sys.db, c) && Committed(e, c)
    requires c.Kill? ==> c.op !in sys.db.stops && c.op in e.stops
    requires TimeoutFrame(e, Frame(sys.frames[f].lock, Some(c), KillOwned(c), false))
    ensures var w := Written(sys, f, e, Some(c), KillOwned(c));
      PermitsFresh(w) && CallsOnce(w) && ScopesHeld(w) && StopsOwned(w) && TimeoutsOwned(w)
  {
    hide Committed, Unanswered;
  }

  /** An intent transaction addresses no stop that is already there. */
  lemma IntentAddressesNothing(db: DB, s: Step, op: Id)
    requires RowEffects.Finds(db, s) && Intends(s).Some? && op in db.stops
    ensures !StopTargets.Addresses(s, op)
  {}

  /** The stop a frame reserves is new, unanswered and on the Pair it locked. */
  lemma ArmedStop(db: DB, s: Step, e: DB, lock: Option<Id>)
    requires RowEffects.Moves(db, s, e) && Intends(s).Some? && ReservesFor(s, lock)
    ensures var c := Intends(s).value;
      && (c.Kill? ==> c.op !in db.stops && c.op in e.stops)
      && TimeoutFrame(e, Frame(lock, Some(c), KillOwned(c), false))
  {
    hide Kept, RowEffects.PairRows;
    var op := Intends(s).value.op;
    assert RowEffects.Row(e.stops, op) == RowEffects.StopAfter(db, s, op);
  }

  lemma FireKeeps(sys: System, f: Id)
    requires ProtocolInv(sys) && f in sys.frames && sys.frames[f].permit.Some?
    ensures ProtocolInv(Fired(sys, f))
  {
    hide SagaInv, Committed, Unanswered;
  }

  lemma WaiveKeeps(sys: System, f: Id)
    requires ProtocolInv(sys) && f in sys.frames
    ensures ProtocolInv(Written(sys, f, sys.db, None, sys.frames[f].owns))
  {
    hide SagaInv;
    Quiet(sys, f);
  }

  lemma EnterKeeps(sys: System, f: Id)
    requires ProtocolInv(sys) && f !in sys.frames
    ensures ProtocolInv(Entered(sys, f))
  {
    hide SagaInv, Committed, Unanswered;
  }

  lemma AdmitKeeps(sys: System, f: Id, pair: Id)
    requires ProtocolInv(sys) && f in sys.frames && sys.frames[f] == FRESH && !sys.scanning && pair !in sys.holders
    ensures ProtocolInv(Admitted(sys, f, pair))
  {
    hide SagaInv, Committed, Unanswered;
  }

  lemma ValidateKeeps(sys: System, f: Id)
    requires ProtocolInv(sys) && f in sys.frames
    ensures ProtocolInv(sys.(frames := sys.frames[f := sys.frames[f].(validated := true)]))
  {
    hide SagaInv, Committed, Unanswered;
  }

  lemma ReturnKeeps(sys: System, f: Id)
    requires ProtocolInv(sys) && f in sys.frames
    ensures ProtocolInv(Returned(sys, f))
  {
    hide SagaInv, Committed, Unanswered;
  }

  lemma CrashKeeps(sys: System)
    requires ProtocolInv(sys)
    ensures ProtocolInv(sys.(frames := map[], holders := map[], scanning := false))
  {
    hide SagaInv, Committed, Unanswered;
  }

  lemma ScanScopeKeeps(sys: System, scanning: bool)
    requires ProtocolInv(sys) && (scanning ==> sys.holders == map[])
    ensures ProtocolInv(sys.(scanning := scanning))
  {
    hide SagaInv, Committed, Unanswered;
  }

  /** Whatever any coordinator, operator, poller or scan does next, and wherever it crashes. */
  lemma MoveKeeps(sys: System, m: Move)
    requires ProtocolInv(sys) && Enabled(sys, m)
    ensures ProtocolInv(Next(sys, m))
  {
    hide ProtocolInv, Allowed, Effect, SagaStep, BackgroundStep, Written, Fired, Entered, Admitted, Returned, ReservesFor, Intends, TimeoutEffectOwner;
    match m
    case Background(s) => BackgroundKeeps(sys, s);
    case Scan(s) => ScanKeeps(sys, s);
    case Owner(f, s) => OwnerKeeps(sys, f, s);
    case Enter(f) => EnterKeeps(sys, f);
    case Admit(f, pair) => AdmitKeeps(sys, f, pair);
    case Arm(f, s) => ArmKeeps(sys, f, s);
    case Validate(f) => ValidateKeeps(sys, f);
    case Fire(f) => FireKeeps(sys, f);
    case Waive(f) => WaiveKeeps(sys, f);
    case Return(f) => ReturnKeeps(sys, f);
    case StartScan => ScanScopeKeeps(sys, true);
    case EndScan => ScanScopeKeeps(sys, false);
    case Crash => CrashKeeps(sys);
  }

  // --- behaviours --------------------------------------------------------------------------------

  const BOOT := System(EMPTY_DB, map[], map[], false, [])

  ghost predicate MoveAt(states: seq<System>, moves: seq<Move>, i: int) {
    0 <= i < |moves| && i + 1 < |states| && Enabled(states[i], moves[i]) && states[i + 1] == Next(states[i], moves[i])
  }

  /** Any interleaving of any coordinators with crashes, from an empty database. */
  ghost predicate Behaviour(states: seq<System>, moves: seq<Move>) {
    && |states| == |moves| + 1
    && states[0] == BOOT
    && forall i | 0 <= i < |moves| :: MoveAt(states, moves, i)
  }

  lemma BootInv()
    ensures ProtocolInv(BOOT)
  {
    hide SagaInv;
    Runs.EmptyInv();
  }

  lemma {:induction false} ProtocolAlways(states: seq<System>, moves: seq<Move>, i: nat)
    requires Behaviour(states, moves) && i <= |moves|
    ensures ProtocolInv(states[i])
  {
    hide ProtocolInv, Enabled, Next;
    if i == 0 {
      BootInv();
    } else {
      assert MoveAt(states, moves, i - 1);
      ProtocolAlways(states, moves, i - 1);
      MoveKeeps(states[i - 1], moves[i - 1]);
    }
  }

  // --- at most one call ------------------------------------------------------------------------------

  /** What a call does to the outside world, beyond the operation it belongs to: one prompt per
      attempt, one live kill per attempt, one session per Pair. */
  ghost predicate SameEffect(db: DB, c: Call, d: Call) {
    match c
    case Create(op) => d.Create? && op in db.provisions && d.op in db.provisions && db.provisions[op].pair == db.provisions[d.op].pair
    case Send(op) => d.Send? && op in db.dispatches && d.op in db.dispatches && db.dispatches[op].bound.attempt == db.dispatches[d.op].bound.attempt
    case Kill(op) =>
      d.Kill? && (op == d.op || exists a :: LiveStop(db.stops, op, a) && LiveStop(db.stops, d.op, a))
    case Resume(op) => d.Resume? && op == d.op
  }

  lemma UniqueRows(db: DB)
    requires Inv(db)
    ensures ProvisionInv(db.provisions, db.sessions) && DispatchRefs(db.tasks, db.attempts, db.dispatches) && StopsUnique(db.stops)
  {}

  lemma SameEffectSameCall(db: DB, c: Call, d: Call)
    requires ProvisionInv(db.provisions, db.sessions) && DispatchRefs(db.tasks, db.attempts, db.dispatches) && StopsUnique(db.stops)
    requires SameEffect(db, c, d)
    ensures c == d
  {}

  /** In every behaviour each attempt is prompted at most once and killed live at most once,
      each restore resumed at most once and each Pair given at most one session; and the
      intent of every call is durable. */
  lemma AtMostOnce(states: seq<System>, moves: seq<Move>, i: nat)
    requires Behaviour(states, moves) && i <= |moves|
    ensures forall c | c in states[i].calls :: Committed(states[i].db, c)
    ensures forall j, k | 0 <= j < k < |states[i].calls| :: !SameEffect(states[i].db, states[i].calls[j], states[i].calls[k])
  {
    hide SagaInv, Inv, Enabled, Next, SameEffect, Committed, ProvisionInv, DispatchRefs, StopsUnique;
    ProtocolAlways(states, moves, i);
    SagaProofs.SagaParts(states[i].db);
    UniqueRows(states[i].db);
    var calls := states[i].calls;
    forall j, k | 0 <= j < k < |calls| ensures !SameEffect(states[i].db, calls[j], calls[k]) {
      if SameEffect(states[i].db, calls[j], calls[k]) { SameEffectSameCall(states[i].db, calls[j], calls[k]); }
    }
  }

  /** A durable intent whose call has not been made and that no frame may make any more. */
  predicate Orphaned(sys: System, c: Call) {
    Committed(sys.db, c) && c !in sys.calls && forall f | f in sys.frames :: sys.frames[f].permit != Some(c)
  }

  lemma OrphanedStays(sys: System, m: Move, c: Call)
    requires Orphaned(sys, c) && Enabled(sys, m)
    ensures Orphaned(Next(sys, m), c)
  {
    hide Allowed, Effect, SagaStep, BackgroundStep, Committed, Intends, ReservesFor, TimeoutEffectOwner, RowEffects.Moves;
    if m.Background? || m.Scan? || m.Owner? || m.Arm? {
      RowEffects.StepMoves(sys.db, m.s);
      CommittedStays(sys.db, m.s, Effect(sys.db, m.s), c);
      if m.Arm? { IntentIsFresh(sys.db, m.s, Effect(sys.db, m.s)); }
    }
  }

  /** Nobody reconstructs a permit from a row: an orphaned intent is never executed. */
  lemma {:induction false} OrphanedForever(states: seq<System>, moves: seq<Move>, i: nat, j: nat, c: Call)
    requires Behaviour(states, moves) && i <= j <= |moves| && Orphaned(states[i], c)
    ensures Orphaned(states[j], c)
  {
    hide Enabled, Next, Orphaned;
    if i < j {
      OrphanedForever(states, moves, i, j - 1, c);
      assert MoveAt(states, moves, j - 1);
      OrphanedStays(states[j - 1], moves[j - 1], c);
    }
  }

  // --- the timeout kill --------------------------------------------------------------------------------

  /** At the moment StartTimeout kills, its row is still STOP_REQUESTED/IN_FLIGHT, the task is
      RUNNING, the attempt open and quarantined, and the session is that of the attempt and
      quarantined: the Pair scope keeps the scan out, and stop ownership keeps everyone else. */
  lemma TimeoutKillIsContained(states: seq<System>, moves: seq<Move>, i: nat, f: Id)
    requires Behaviour(states, moves) && i < |moves| && moves[i] == Fire(f)
    requires f in states[i].frames && states[i].frames[f].lock.Some?
    ensures states[i].frames[f].owns.Some? && states[i].frames[f].permit == Some(Kill(states[i].frames[f].owns.value))
    ensures var op := states[i].frames[f].owns.value; Unanswered(states[i].db, op) && Contained(states[i].db, states[i].db.stops[op].target)
  {
    hide SagaInv, Allowed, Effect, SagaStep, Committed, TimeoutEffectOwner, BackgroundStep, Contained, Next;
    assert MoveAt(states, moves, i);
    ProtocolAlways(states, moves, i);
    assert TimeoutFrame(states[i].db, states[i].frames[f]);
    UnansweredIsContained(states[i].db, states[i].frames[f].owns.value);
  }

  predicate Contained(db: DB, t: StopTarget) {
    && LiveStopHolds(db.tasks, db.attempts, t)
    && SessionIs(db.sessions, t.pair, t.session, t.gen) && db.sessions[t.pair].quarantined
  }

  lemma UnansweredIsContained(db: DB, op: Id)
    requires SagaInv(db) && Unanswered(db, op) && db.stops[op].target.purpose.RunningAttemptStop?
    ensures Contained(db, db.stops[op].target)
  {
    assert LiveStopHolds(db.tasks, db.attempts, db.stops[op].target);
    assert StopRows(db.tasks, db.attempts, db.sessions, db.stops) && SessionInv(db.tasks, db.attempts, db.sessions);
  }
}
