/** What a run of the host promises: every external call once and after its intent, no call from
    an intent nobody saw commit, a contained worker under a timeout kill, and durable rows behind
    every reported success. */
module CoordinatorTheorems {
  import opened Domain
  import opened Invariants
  import opened Steps
  import opened Coordinators
  import opened CoordinatorProofs
  import BudgetTheorems
  import Protocol
  import RowEffects

  // --- calls ------------------------------------------------------------------------------

  /** However callers interleave, crash, and see commits fail that did not: one prompt per
      attempt, one live kill per attempt, one resume per restore, one session per Pair. */
  lemma HostCallsOnce(states: seq<Host>, actions: seq<Action>, i: nat)
    requires HostRun(states, actions) && i <= |actions|
    ensures forall c | c in states[i].calls :: Protocol.Committed(states[i].db, c)
    ensures forall j, k | 0 <= j < k < |states[i].calls| :: !Protocol.SameEffect(states[i].db, states[i].calls[j], states[i].calls[k])
  {
    hide Possible, Then, Protocol.Enabled, Protocol.Next, Protocol.SameEffect, Protocol.Committed;
    var ps, ms := HostRefines(states, actions, i);
    Protocol.AtMostOnce(ps, ms, |ms|);
  }

  /** Before it makes its call, a caller has seen the intent commit, and nobody has made that call. */
  lemma HostCallFollowsIntent(states: seq<Host>, actions: seq<Action>, i: nat, f: Id)
    requires HostRun(states, actions) && i <= |actions| && f in states[i].callers && PermitOf(states[i].callers[f]).Some?
    ensures Protocol.Committed(states[i].db, PermitOf(states[i].callers[f]).value) && PermitOf(states[i].callers[f]).value !in states[i].calls
    ensures forall g | g in states[i].callers :: PermitOf(states[i].callers[g]) == PermitOf(states[i].callers[f]) ==> g == f
  {
    hide Possible, Then, Protocol.Enabled, Protocol.Next, Protocol.Committed, PermitOf, LockOf, WellFormed, SagaInv, Protocol.StopsOwned, Protocol.TimeoutsOwned;
    var ps, ms := HostRefines(states, actions, i);
    Protocol.ProtocolAlways(ps, ms, |ms|);
  }

  // --- intents nobody will execute ----------------------------------------------------------

  /** The intent is durable, its call has not been made, and no caller is on its way to it: its
      caller has crashed, given up, or seen the commit fail. */
  predicate Abandoned(h: Host, c: Call) {
    Protocol.Committed(h.db, c) && c !in h.calls && forall f | f in h.callers :: PermitOf(h.callers[f]) != Some(c)
  }

  lemma AbandonedIsOrphaned(h: Host, sys: Protocol.System, c: Call)
    requires Matches(h, sys)
    ensures Abandoned(h, c) <==> Protocol.Orphaned(sys, c)
  {
    hide Protocol.Committed, PermitOf, LockOf, WellFormed;
  }

  /** A row is never taken for a permit: an abandoned intent stays abandoned for ever. */
  lemma {:induction false} AbandonedForever(states: seq<Host>, actions: seq<Action>, i: nat, j: nat, c: Call)
    requires HostRun(states, actions) && i <= j <= |actions| && Abandoned(states[i], c)
    ensures Abandoned(states[j], c)
  {
    hide Possible, Then, Protocol.Enabled, Protocol.Next, Matches, Abandoned, Protocol.Orphaned;
    if i < j {
      AbandonedForever(states, actions, i, j - 1, c);
      assert ActionAt(states, actions, j - 1);
      var ps, ms := HostRefines(states, actions, j - 1);
      var sys := ps[|ms|];
      var m := ActionRefines(states[j - 1], actions[j - 1], sys);
      AbandonedIsOrphaned(states[j - 1], sys, c);
      if m.Some? { Protocol.OrphanedStays(sys, m.value, c); }
      AbandonedIsOrphaned(states[j], if m.Some? then Protocol.Next(sys, m.value) else sys, c);
    }
  }

  /** After a crash no durable intent is executed any more. */
  lemma CrashAbandons(states: seq<Host>, actions: seq<Action>, i: nat, j: nat, c: Call)
    requires HostRun(states, actions) && i < j <= |actions| && actions[i].CrashHost?
    requires Protocol.Committed(states[i].db, c) && c !in states[i].calls
    ensures c !in states[j].calls
  {
    hide Possible, Protocol.Committed, PermitOf;
    assert ActionAt(states, actions, i);
    AbandonedForever(states, actions, i + 1, j, c);
  }

  /** The commit of an intent succeeded and its caller saw an error. */
  predicate LostIntent(h: Host, a: Action, c: Call) {
    && a.Advance? && Possible(h, a) && a.reply.Stored? && a.reply.commit.Lost?
    && Protocol.Intends(TurnOf(h.callers[a.f], At(a.reply)).s) == Some(c)
  }

  lemma LostIsAbandoned(h: Host, a: Action, c: Call, sys: Protocol.System)
    requires Matches(h, sys) && Protocol.PermitsFresh(sys) && Protocol.CallsOnce(sys) && LostIntent(h, a, c)
    ensures Abandoned(Then(h, a), c)
  {
    hide Allowed, Effect, Protocol.Committed, Protocol.Intends, TurnOf, NextOf, PermitOf, LockOf, WellFormed, RowEffects.Moves;
    var turn := TurnOf(h.callers[a.f], At(a.reply));
    RowEffects.StepMoves(h.db, turn.s);
    Protocol.IntentIsFresh(h.db, turn.s, Effect(h.db, turn.s));
    LostGivesNoPermit(h.callers[a.f], a.reply, h.db);
  }

  lemma LostGivesNoPermit(c: Caller, reply: Reply, db: DB)
    requires Fits(TurnOf(c, At(reply)), reply) && reply.Stored? && !reply.commit.Done?
    ensures PermitOf(NextOf(c, reply, db)).None?
  {}

  /** Whoever saw the commit of an intent fail never makes the call, and nobody else does. */
  lemma LostIntentNeverCalled(states: seq<Host>, actions: seq<Action>, i: nat, j: nat, c: Call)
    requires HostRun(states, actions) && i < j <= |actions| && LostIntent(states[i], actions[i], c)
    ensures Protocol.Committed(states[j].db, c) && c !in states[j].calls
  {
    hide Possible, Then, Protocol.Committed, PermitOf, Protocol.Enabled, Protocol.Next, Matches, LostIntent, Protocol.PermitsFresh, Protocol.CallsOnce, SagaInv;
    assert ActionAt(states, actions, i);
    var ps, ms := HostRefines(states, actions, i);
    Protocol.ProtocolAlways(ps, ms, |ms|);
    LostIsAbandoned(states[i], actions[i], c, ps[|ms|]);
    AbandonedForever(states, actions, i + 1, j, c);
  }

  // --- TIMEOUT stops --------------------------------------------------------------------------

  /** A writer outside the coordinator calls inserts a TIMEOUT stop that is not due. */
  predicate Forges(h: Host, a: Action) {
    match a
    case Other(s) => BudgetTheorems.ForgesTimeout(h.db, s)
    case Sweep(s) => BudgetTheorems.ForgesTimeout(h.db, s)
    case _ => false
  }

  /** No coordinator call does: a TIMEOUT cause goes through ReserveStopOperation. */
  lemma TurnsForgeNothing(h: Host, f: Id, reply: Reply)
    requires Possible(h, Advance(f, reply)) && WellFormed(h.callers[f])
    ensures var turn := TurnOf(h.callers[f], At(reply)); turn.Commits? && !reply.commit.Refused? ==> !BudgetTheorems.ForgesTimeout(h.db, turn.s)
  {
    hide Allowed, Effect, BudgetTheorems.Due;
    var turn := TurnOf(h.callers[f], At(reply));
    if turn.Commits? && !reply.commit.Refused? { RowEffects.StepFinds(h.db, turn.s); }
  }

  lemma ActionDue(h: Host, a: Action)
    requires Possible(h, a) && !Forges(h, a) && (a.Advance? ==> WellFormed(h.callers[a.f])) && BudgetTheorems.TimeoutsDue(h.db)
    ensures BudgetTheorems.TimeoutsDue(Then(h, a).db)
  {
    hide Allowed, Effect, BudgetTheorems.TimeoutIsDue, BudgetTheorems.ForgesTimeout, TurnOf, NextOf, LockOf, WellFormed, SagaStep, Protocol.BackgroundStep;
    match a
    case Other(s) => DueAfter(h.db, s);
    case Sweep(s) => DueAfter(h.db, s);
    case Advance(f, reply) =>
      TurnsForgeNothing(h, f, reply);
      var turn := TurnOf(h.callers[f], At(reply));
      if turn.Commits? && !reply.commit.Refused? { DueAfter(h.db, turn.s); }
    case _ =>
  }

  lemma DueAfter(db: DB, s: Step)
    requires Allowed(db, s) && !BudgetTheorems.ForgesTimeout(db, s) && BudgetTheorems.TimeoutsDue(db)
    ensures BudgetTheorems.TimeoutsDue(Effect(db, s))
  {
    hide Allowed, Effect, BudgetTheorems.TimeoutIsDue, BudgetTheorems.ForgesTimeout, RowEffects.Moves;
    var e := Effect(db, s);
    RowEffects.StepMoves(db, s);
    forall op ensures BudgetTheorems.TimeoutIsDue(e.stops, e.budgets, op) { BudgetTheorems.TimeoutStaysDue(db, s, e, op); }
  }

  lemma {:induction false} HostDueUntil(states: seq<Host>, actions: seq<Action>, i: nat)
    requires HostRun(states, actions) && i <= |actions|
    requires forall k | 0 <= k < i :: !Forges(states[k], actions[k])
    ensures BudgetTheorems.TimeoutsDue(states[i].db)
  {
    hide Possible, Then, Forges, BudgetTheorems.TimeoutIsDue, WellFormed, Represents, Protocol.Behaviour;
    if i == 0 {
      NothingTimedOut();
    } else {
      HostDueUntil(states, actions, i - 1);
      assert ActionAt(states, actions, i - 1);
      CallersWellFormed(states, actions, i - 1);
      AdvancesInside(states[i - 1], actions[i - 1]);
      ActionDue(states[i - 1], actions[i - 1]);
    }
  }

  lemma NothingTimedOut()
    ensures BudgetTheorems.TimeoutsDue(EMPTY_DB)
  {}

  lemma AdvancesInside(h: Host, a: Action)
    requires Possible(h, a)
    ensures a.Advance? ==> a.f in h.callers
  {
    hide Allowed, TurnOf;
  }

  lemma CallersWellFormed(states: seq<Host>, actions: seq<Action>, i: nat)
    requires HostRun(states, actions) && i <= |actions|
    ensures forall f | f in states[i].callers :: WellFormed(states[i].callers[f])
  {
    hide Possible, Then, Protocol.Enabled, Protocol.Next, WellFormed, Represents;
    var ps, ms := HostRefines(states, actions, i);
  }

  /** In a run of the host every TIMEOUT stop is due if and only if no operator call forges one:
      Start and StartTimeout never do. */
  lemma HostTimeoutsDueIff(states: seq<Host>, actions: seq<Action>)
    requires HostRun(states, actions)
    ensures (forall i | 0 <= i <= |actions| :: BudgetTheorems.TimeoutsDue(states[i].db)) <==> forall k | 0 <= k < |actions| :: !Forges(states[k], actions[k])
  {
    hide BudgetTheorems.TimeoutsDue, Possible, Then, Forges;
    if forall k | 0 <= k < |actions| :: !Forges(states[k], actions[k]) {
      forall i | 0 <= i <= |actions| ensures BudgetTheorems.TimeoutsDue(states[i].db) { HostDueUntil(states, actions, i); }
    } else {
      var k :| 0 <= k < |actions| && Forges(states[k], actions[k]);
      assert ActionAt(states, actions, k);
      ForgedAction(states[k], actions[k]);
    }
  }

  lemma ForgedAction(h: Host, a: Action)
    requires Possible(h, a) && Forges(h, a)
    ensures !BudgetTheorems.TimeoutsDue(Then(h, a).db)
  {
    hide Allowed, Effect, BudgetTheorems.TimeoutsDue, BudgetTheorems.ForgesTimeout, SagaStep, Protocol.BackgroundStep;
    var s := a.s;
    BudgetTheorems.ForgedIsNotDue(h.db, s, Effect(h.db, s));
  }
}
