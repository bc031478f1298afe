/** The callers of Coordinators refine the frames of Protocol: each of their turns is one move of
    the protocol or none, so what holds of every behaviour holds of every run of the host. */
module CoordinatorProofs {
  import opened Domain
  import opened StopTransactions
  import opened Steps
  import opened Coordinators
  import Protocol
  import RowEffects
  import StopTargets

  // --- a caller as a frame -----------------------------------------------------------------

  /** The call a caller is still on its way to. */
  function PermitOf(c: Caller): Option<Call> {
    match c
    case Provisioning(op, _, pc) => if pc.CreateSession? then Some(Protocol.Create(op)) else None
    case Restoring(op, _, pc) => if pc.ResumeWorker? then Some(Protocol.Resume(op)) else None
    case Dispatching(rq, pc) => if pc.SendPrompt? then Some(Protocol.Send(rq.bind.op)) else None
    case Stopping(rq, pc) => if pc.ObserveTarget? || pc.ValidateOwner? || pc.KillWorker? then Some(Protocol.Kill(rq.op)) else None
  }

  predicate Unreserved(pc: StopPc) { pc.AcquireScope? || pc.Preflight? || pc.VerifyOperator? || pc.ObserveClaim? || pc.ReserveIntent? }

  predicate Over(pc: StopPc) { pc.StopEnd? || pc.StopDenied? }

  /** The stop this caller has seen itself reserve. */
  predicate Owns(c: Caller) { c.Stopping? && !Unreserved(c.kill) && !Over(c.kill) }

  predicate WellFormed(c: Caller) {
    c.Stopping? ==>
      && c.stop.target.timeout == c.stop.timed
      && (c.stop.timed ==> c.stop.target.purpose.RunningAttemptStop?)
      && (c.kill.AcquireScope? ==> c.stop.timed)
  }

  predicate Represents(c: Caller, fr: Protocol.Frame) {
    && fr.lock == LockOf(c) && fr.permit == PermitOf(c)
    && (!c.Stopping? || Unreserved(c.kill) ==> fr.owns.None?)
    && (Owns(c) ==> fr.owns == Some(c.stop.op))
    && (c.Stopping? && c.kill.AcquireScope? ==> !fr.validated)
    && (c.Stopping? && c.kill.KillWorker? && c.stop.timed ==> fr.validated)
  }

  predicate Matches(h: Host, sys: Protocol.System) {
    && sys.db == h.db && sys.holders == h.holders && sys.scanning == h.scanning && sys.calls == h.calls
    && sys.frames.Keys == h.callers.Keys
    && forall f | f in h.callers :: WellFormed(h.callers[f]) && Represents(h.callers[f], sys.frames[f])
  }

  // --- the move of a turn -----------------------------------------------------------------------

  function MoveOf(f: Id, c: Caller, d: Caller, turn: Turn, reply: Reply): Option<Protocol.Move>
    requires Fits(turn, reply)
  {
    match turn
    case Commits(s) =>
      if reply.commit.Refused? then None
      else if Owns(c) then Some(Protocol.Owner(f, s))
      else if PermitOf(d).Some? then Some(Protocol.Arm(f, s))
      else Some(Protocol.Background(s))
    case Calls(_) => Some(Protocol.Fire(f))
    case Acquires(pair) => if reply.granted then Some(Protocol.Admit(f, pair)) else None
    case _ =>
      if c.Stopping? && c.kill.ValidateOwner? && PermitOf(d).Some? then Some(Protocol.Validate(f))
      else if PermitOf(c).Some? && PermitOf(d).None? then Some(Protocol.Waive(f))
      else None
  }

  /** The frame after the move. */
  function FrameAfter(fr: Protocol.Frame, m: Option<Protocol.Move>): Protocol.Frame {
    if m.None? then fr
    else match m.value
      case Owner(_, _) => fr.(permit := None)
      case Arm(_, s) => if Protocol.Intends(s).Some? then fr.(permit := Protocol.Intends(s), owns := Protocol.KillOwned(Protocol.Intends(s).value)) else fr
      case Fire(_) => fr.(permit := None)
      case Waive(_) => fr.(permit := None)
      case Admit(_, pair) => Protocol.FRESH.(lock := Some(pair))
      case Validate(_) => fr.(validated := true)
      case _ => fr
  }

  /** A caller holds no permit while it commits, and gets one from the intent it saw commit. */
  lemma CommitTurn(f: Id, c: Caller, reply: Reply, db: DB, fr: Protocol.Frame)
    requires WellFormed(c) && Represents(c, fr) && TurnOf(c, At(reply)).Commits? && Fits(TurnOf(c, At(reply)), reply)
    requires !reply.commit.Refused? ==> Allowed(db, TurnOf(c, At(reply)).s)
    ensures var s := TurnOf(c, At(reply)).s; var d := NextOf(c, reply, db); var m := MoveOf(f, c, d, Commits(s), reply);
      && WellFormed(d) && Represents(d, FrameAfter(fr, m)) && SagaStep(s)
      && (m.Some? && m.value.Owner? ==> fr.owns.Some? && StopTargets.Addresses(s, fr.owns.value))
      && (m.Some? && m.value.Arm? ==> fr.permit.None? && fr.owns.None? && Protocol.Intends(s).Some? && Protocol.ReservesFor(s, fr.lock))
      && (m.Some? && m.value.Background? ==> Protocol.BackgroundStep(s))
  {
    hide Allowed, Effect;
    if c.Stopping? && c.kill.ReserveIntent? && !reply.commit.Refused? { RowEffects.StepFinds(db, TurnOf(c, At(reply)).s); }
  }

  /** Every other turn leaves the database, and makes a call only with the permit for it. */
  lemma OtherTurn(f: Id, c: Caller, reply: Reply, db: DB, fr: Protocol.Frame)
    requires WellFormed(c) && Represents(c, fr) && !TurnOf(c, At(reply)).Commits? && Fits(TurnOf(c, At(reply)), reply)
    ensures var turn := TurnOf(c, At(reply)); var d := NextOf(c, reply, db); var m := MoveOf(f, c, d, turn, reply);
      && WellFormed(d) && Represents(d, FrameAfter(fr, m))
      && (turn.Calls? ==> fr.permit == Some(turn.call) && (fr.lock.Some? ==> fr.validated))
      && (turn.Acquires? ==> fr == Protocol.FRESH)
      && (m.Some? && m.value.Validate? ==> fr.owns.Some? && TimeoutEffectOwner(db, fr.owns.value))
  {
    hide TimeoutEffectOwner;
  }

  // --- the refinement ---------------------------------------------------------------------------------

  lemma AdvanceRefines(h: Host, f: Id, reply: Reply, sys: Protocol.System) returns (m: Option<Protocol.Move>)
    requires Matches(h, sys) && Possible(h, Advance(f, reply))
    ensures m.None? ==> Matches(Advanced(h, f, reply), sys)
    ensures m.Some? ==> Protocol.Enabled(sys, m.value) && Matches(Advanced(h, f, reply), Protocol.Next(sys, m.value))
  {
    hide Allowed, Effect, SagaStep, Protocol.BackgroundStep, Protocol.ReservesFor, Protocol.Intends, StopTargets.Addresses, TimeoutEffectOwner;
    hide TurnOf, NextOf, PermitOf, LockOf, WellFormed, Represents;
    var c := h.callers[f];
    var turn := TurnOf(c, At(reply));
    m := MoveOf(f, c, NextOf(c, reply, h.db), turn, reply);
    if turn.Commits? { CommitTurn(f, c, reply, h.db, sys.frames[f]); } else { OtherTurn(f, c, reply, h.db, sys.frames[f]); }
  }

  lemma LeaveRefines(h: Host, f: Id, sys: Protocol.System)
    requires Matches(h, sys) && f in h.callers
    ensures Matches(Left(h, f), Protocol.Returned(sys, f))
  {
    hide PermitOf, LockOf;
  }

  lemma BeginRefines(h: Host, f: Id, c: Caller, sys: Protocol.System)
    requires Matches(h, sys) && Possible(h, Begin(f, c))
    ensures Matches(Then(h, Begin(f, c)), Protocol.Entered(sys, f))
  {
    hide Allowed, Effect, TurnOf, NextOf;
  }

  /** One turn of a caller, or anything else the host does, is one move of the protocol or none. */
  lemma ActionRefines(h: Host, a: Action, sys: Protocol.System) returns (m: Option<Protocol.Move>)
    requires Matches(h, sys) && Possible(h, a)
    ensures m.None? ==> Matches(Then(h, a), sys)
    ensures m.Some? ==> Protocol.Enabled(sys, m.value) && Matches(Then(h, a), Protocol.Next(sys, m.value))
  {
    hide Allowed, Effect, SagaStep, Protocol.BackgroundStep, WellFormed, Represents, TurnOf, NextOf, Advanced, Left, Initial;
    match a
    case Other(s) => m := Some(Protocol.Background(s));
    case Sweep(s) => m := Some(Protocol.Scan(s));
    case Begin(f, c) => m := Some(Protocol.Enter(f)); BeginRefines(h, f, c, sys);
    case Advance(f, reply) => m := AdvanceRefines(h, f, reply, sys);
    case Leave(f) => m := Some(Protocol.Return(f)); LeaveRefines(h, f, sys);
    case OpenSweep => m := Some(Protocol.StartScan);
    case CloseSweep => m := Some(Protocol.EndScan);
    case CrashHost => m := Some(Protocol.Crash);
  }

  lemma Extended(ps: seq<Protocol.System>, ms: seq<Protocol.Move>, m: Protocol.Move)
    requires Protocol.Behaviour(ps, ms) && Protocol.Enabled(ps[|ms|], m)
    ensures Protocol.Behaviour(ps + [Protocol.Next(ps[|ms|], m)], ms + [m])
  {
    hide Protocol.Enabled, Protocol.Next;
    var qs, ns := ps + [Protocol.Next(ps[|ms|], m)], ms + [m];
    forall i | 0 <= i < |ns| ensures Protocol.MoveAt(qs, ns, i) {
      if i < |ms| { assert Protocol.MoveAt(ps, ms, i); }
    }
  }

  /** Every run of the host, up to any point, is a behaviour of the protocol that ends with the
      same database, scopes and calls. */
  lemma {:induction false} HostRefines(states: seq<Host>, actions: seq<Action>, i: nat) returns (ps: seq<Protocol.System>, ms: seq<Protocol.Move>)
    requires HostRun(states, actions) && i <= |actions|
    ensures Protocol.Behaviour(ps, ms) && Matches(states[i], ps[|ms|])
  {
    hide Protocol.Enabled, Protocol.Next, Possible, Then;
    if i == 0 {
      ps, ms := [Protocol.BOOT], [];
    } else {
      ps, ms := HostRefines(states, actions, i - 1);
      assert ActionAt(states, actions, i - 1);
      var m := ActionRefines(states[i - 1], actions[i - 1], ps[|ms|]);
      if m.Some? {
        Extended(ps, ms, m.value);
        ps, ms := ps + [Protocol.Next(ps[|ms|], m.value)], ms + [m.value];
      }
    }
  }
}
