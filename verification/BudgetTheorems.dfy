/** Execution budgets, send confirmations and TIMEOUT stops. */
module BudgetTheorems {
  import opened Domain
  import opened DispatchTransactions
  import opened Invariants
  import opened History
  import opened Steps
  import RowEffects
  import Runs
  import StopTargets

  // --- one budget per confirmed send ---------------------------------------------------

  predicate BudgetOf(budgets: map<Id, Budget>, a: Id, op: Id) { a in budgets && budgets[a].op == op }

  /** An operation is SEND_CONFIRMED exactly when it has a budget, and then it has one only:
      it starts at the confirmation and ends its positive duration later. */
  lemma ConfirmedIffBudget(states: seq<DB>, steps: seq<Step>, i: nat, op: Id)
    requires Run(states, steps) && i <= |steps| && op in states[i].dispatches
    ensures states[i].dispatches[op].stage.SendConfirmed? <==> exists a :: BudgetOf(states[i].budgets, a, op)
    ensures forall a | BudgetOf(states[i].budgets, a, op) ::
              && a == states[i].dispatches[op].bound.attempt
              && var b := states[i].budgets[a];
              && states[i].dispatches[op].confirmedAt == Some(b.origin)
              && b.deadline == b.origin + b.duration > b.origin
  {
    hide Inv, Allowed, Effect;
    Runs.Always(states, steps, i);
    ConfirmedIffBudget1(states[i], op);
  }

  lemma ConfirmedIffBudget1(db: DB, op: Id)
    requires Inv(db) && op in db.dispatches
    ensures db.dispatches[op].stage.SendConfirmed? <==> exists a :: BudgetOf(db.budgets, a, op)
    ensures forall a | BudgetOf(db.budgets, a, op) ::
              && a == db.dispatches[op].bound.attempt
              && var b := db.budgets[a];
              && db.dispatches[op].confirmedAt == Some(b.origin)
              && b.deadline == b.origin + b.duration > b.origin
  {
    assert BudgetInv(db.dispatches, db.budgets);
    assert db.dispatches[op].stage.SendConfirmed? ==> BudgetOf(db.budgets, db.dispatches[op].bound.attempt, op);
  }

  lemma {:induction false} BudgetsNeverChange(states: seq<DB>, steps: seq<Step>, i: nat, j: nat, a: Id)
    requires Run(states, steps) && i <= j <= |steps| && a in states[i].budgets
    ensures a in states[j].budgets && states[j].budgets[a] == states[i].budgets[a]
    decreases j - i
  {
    hide Allowed, Effect, LineagesKept;
    if i < j {
      assert StepAt(states, steps, j - 1);
      BudgetsNeverChange(states, steps, i, j - 1, a);
      StepHistory(states[j - 1], steps[j - 1]);
    }
  }

  /** In a database born at schema v5 there is no historical attempt to bind. */
  lemma LegacyBindingNeverAdmitted(states: seq<DB>, steps: seq<Step>, i: nat, attempt: Id, op: Id, at: Time, duration: int)
    requires Run(states, steps) && i <= |steps|
    ensures !BindLegacyAdmits(states[i], attempt, op, at, duration)
  {
    hide Inv, Allowed, Effect;
    Runs.Always(states, steps, i);
    LegacyBound(states[i], attempt, op, at, duration);
  }

  lemma LegacyBound(db: DB, attempt: Id, op: Id, at: Time, duration: int)
    requires Inv(db)
    ensures !BindLegacyAdmits(db, attempt, op, at, duration)
  {
    assert BudgetInv(db.dispatches, db.budgets);
  }

  // --- TIMEOUT stops -----------------------------------------------------------------------

  /** The budget of the attempt a stop names has ended by the time the stop is requested. */
  predicate Due(budgets: map<Id, Budget>, t: StopTarget) {
    t.lineage.Some? && t.lineage.value.attempt in budgets && budgets[t.lineage.value.attempt].deadline <= t.requestedAt
  }

  predicate TimeoutIsDue(stops: map<Id, Stop>, budgets: map<Id, Budget>, op: Id) {
    op in stops && stops[op].target.timeout ==> Due(budgets, stops[op].target)
  }

  /** A restore cleanup given the TIMEOUT cause for a stop whose budget, if there is one, is
      still running: the comparison that ReserveStopOperation makes is missing there. */
  predicate ForgesTimeout(db: DB, s: Step) {
    s.RestoreStep? && s.restore.ClaimCleanup? && s.restore.target.timeout && !Due(db.budgets, s.restore.target)
  }

  lemma TimeoutStaysDue(db: DB, s: Step, e: DB, op: Id)
    requires RowEffects.Moves(db, s, e) && !ForgesTimeout(db, s) && TimeoutIsDue(db.stops, db.budgets, op)
    ensures TimeoutIsDue(e.stops, e.budgets, op)
  {
    hide LineagesKept, RowEffects.PairRows, RowEffects.OperationRows;
    if op in db.stops {
      assert StopForward(db.stops[op], e.stops[op]);
    } else if op in e.stops {
      StopTargets.InsertedBy(db, s, e, op);
    }
  }

  ghost predicate TimeoutsDue(db: DB) { forall op :: TimeoutIsDue(db.stops, db.budgets, op) }

  lemma {:induction false} TimeoutsDueUntil(states: seq<DB>, steps: seq<Step>, i: nat)
    requires Run(states, steps) && i <= |steps|
    requires forall k | 0 <= k < i :: !ForgesTimeout(states[k], steps[k])
    ensures TimeoutsDue(states[i])
  {
    hide Allowed, Effect, RowEffects.Moves;
    if i > 0 {
      assert StepAt(states, steps, i - 1);
      TimeoutsDueUntil(states, steps, i - 1);
      RowEffects.StepMoves(states[i - 1], steps[i - 1]);
      forall op ensures TimeoutIsDue(states[i].stops, states[i].budgets, op) {
        TimeoutStaysDue(states[i - 1], steps[i - 1], states[i], op);
      }
    }
  }

  lemma ForgedTimeout(db: DB, s: Step)
    requires Allowed(db, s) && ForgesTimeout(db, s)
    ensures var e := Effect(db, s); !TimeoutIsDue(e.stops, e.budgets, s.restore.op) && s.restore.op in e.stops
  {}

  /** Every TIMEOUT stop of a run is due exactly when every restore cleanup that was given that
      cause names an attempt whose budget has ended. */
  lemma TimeoutsDueIff(states: seq<DB>, steps: seq<Step>)
    requires Run(states, steps)
    ensures (forall i | 0 <= i <= |steps| :: TimeoutsDue(states[i])) <==> forall k | 0 <= k < |steps| :: !ForgesTimeout(states[k], steps[k])
  {
    hide Allowed, Effect, TimeoutsDue;
    if forall k | 0 <= k < |steps| :: !ForgesTimeout(states[k], steps[k]) {
      forall i | 0 <= i <= |steps| ensures TimeoutsDue(states[i]) {
        TimeoutsDueUntil(states, steps, i);
      }
    } else {
      var k :| 0 <= k < |steps| && ForgesTimeout(states[k], steps[k]);
      assert StepAt(states, steps, k);
      ForgedIsNotDue(states[k], steps[k], states[k + 1]);
    }
  }

  lemma ForgedIsNotDue(db: DB, s: Step, e: DB)
    requires Allowed(db, s) && ForgesTimeout(db, s) && e == Effect(db, s)
    ensures !TimeoutsDue(e)
  {
    hide Allowed, Effect;
    ForgedTimeout(db, s);
  }

  /** A run whose only stop claims a timeout although no attempt, budget or deadline exists. */
  lemma ForgedTimeoutHappens() returns (states: seq<DB>, steps: seq<Step>)
    ensures SagaRun(states, steps) && |steps| == 6
    ensures 12 in states[6].stops && states[6].stops[12].target.timeout && states[6].budgets == map[] && states[6].attempts == map[]
  {
    hide Allowed, Effect;
    var s := RestoreStep(ClaimCleanup(12, StopTargets.STRANDED_TARGET.(timeout := true), 9, Some(Observation(70, 2, false))));
    var a, b := StopTargets.StrandingProvisioned();
    var c := StopTargets.StrandingRestored(b);
    var d, e := StopTargets.StrandingClaimed(c);
    var f := ForgedStep(e, s);
    states := StopTargets.StrandingRun(a, b, c, d, e);
    steps := StopTargets.STRANDING[..5] + [s];
    Runs.Extend(states, StopTargets.STRANDING[..5], s, f);
    states := states + [f];
  }

  lemma ForgedStep(e: DB, s: Step) returns (f: DB)
    requires s == RestoreStep(ClaimCleanup(12, StopTargets.STRANDED_TARGET.(timeout := true), 9, Some(Observation(70, 2, false))))
    requires e.restores == map[11 := StopTargets.STRANDING_RESTORE.(resolution := RecoveryClaimed, principal := Some(9), claimedAt := Some(0), version := 2)]
    requires e.sessions == map[7 := Session(70, 1, SessionTerminated, true)] && e.stops == map[]
    ensures Chain(e, s, f) && 12 in f.stops && f.stops[12].target.timeout
    ensures f.budgets == e.budgets && f.attempts == e.attempts
  {
    f := Effect(e, s);
  }
}
