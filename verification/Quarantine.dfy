/** Quarantine is per attempt and per session, is checked per task, and protects the Pair. */
module Quarantine {
  import opened Domain
  import opened Tables
  import opened DispatchTransactions
  import opened ClearanceTransactions
  import opened ClearanceProofs
  import opened Invariants
  import opened History
  import opened Steps
  import RowEffects
  import Runs

  // --- a clean session means a clean Pair ----------------------------------------------

  /** A CLEAN session has no quarantined attempt on any task of its Pair. */
  lemma CleanPair(db: DB, pair: Id)
    requires Inv(db) && pair in db.sessions && !db.sessions[pair].quarantined
    ensures !QuarantinedAttemptOn(db, pair)
  {
    assert SessionInv(db.tasks, db.attempts, db.sessions);
  }

  lemma CleanPairAlways(states: seq<DB>, steps: seq<Step>, i: nat, pair: Id)
    requires Run(states, steps) && i <= |steps|
    requires pair in states[i].sessions && !states[i].sessions[pair].quarantined
    ensures !QuarantinedAttemptOn(states[i], pair)
  {
    hide Allowed, Effect, Inv;
    Runs.Always(states, steps, i);
    CleanPair(states[i], pair);
  }

  /** The attempt check of prepareDispatch looks at one task only; a check of every task of
      the Pair would admit exactly the same dispatches. */
  predicate PrepareAdmitsPairWide(db: DB, x: Allocation) {
    && PrepareAdmits(db, x.task, x.contract, x.attempt, x.op, x.session, x.gen)
    && !QuarantinedAttemptOn(db, db.tasks[x.task].pair)
  }

  lemma TaskCheckIsPairWide(db: DB, x: Allocation)
    requires Inv(db)
    ensures PrepareAdmits(db, x.task, x.contract, x.attempt, x.op, x.session, x.gen) <==> PrepareAdmitsPairWide(db, x)
  {
    if PrepareAdmits(db, x.task, x.contract, x.attempt, x.op, x.session, x.gen) {
      CleanPair(db, db.tasks[x.task].pair);
    }
  }

  // --- from an unknown delivery to a clearance ---------------------------------------------

  /** a is a closed, quarantined attempt of the Pair. */
  predicate Poisoned(db: DB, a: Id, pair: Id) {
    OnPair(db.tasks, db.attempts, a, pair) && db.attempts[a].ended.Some? && db.attempts[a].quarantined
  }

  predicate ClearsPair(s: Step, pair: Id) { s.PairStep? && s.pair.Clear? && s.pair.rq.pair == pair }

  /** Only a clearance of the Pair lifts the quarantine of a closed attempt. */
  lemma PoisonStays(db: DB, s: Step, a: Id, pair: Id)
    requires Poisoned(db, a, pair) && Allowed(db, s) && !ClearsPair(s, pair)
    ensures Poisoned(Effect(db, s), a, pair)
  {
    hide Allowed, Effect, OperationsKept, RowEffects.PairRows, RowEffects.OperationRows, RowEffects.LogAfter;
    StepHistory(db, s);
    RowEffects.StepRows(db, s);
    RowEffects.StepFinds(db, s);
    assert RowEffects.Row(Effect(db, s).attempts, a) == RowEffects.AttemptAfter(db, s, a);
  }

  lemma {:induction false} PoisonLasts(states: seq<DB>, steps: seq<Step>, i: nat, j: nat, a: Id, pair: Id)
    requires Run(states, steps) && i <= j <= |steps| && Poisoned(states[i], a, pair)
    requires forall k | i <= k < j :: !ClearsPair(steps[k], pair)
    ensures Poisoned(states[j], a, pair)
    decreases j - i
  {
    hide Allowed, Effect;
    if i < j {
      assert StepAt(states, steps, j - 1);
      PoisonLasts(states, steps, i, j - 1, a, pair);
      PoisonStays(states[j - 1], steps[j - 1], a, pair);
    }
  }

  /** The step allocates an attempt or records a send intent on the Pair. */
  predicate SendsOn(db: DB, s: Step, pair: Id) {
    && s.DispatchStep?
    && match s.dispatch
       case Prepare(x) => x.task in db.tasks && db.tasks[x.task].pair == pair
       case RequestSend(op, _, _) => op in db.dispatches && db.dispatches[op].bound.pair == pair
       case _ => false
  }

  lemma PoisonBlocks(db: DB, s: Step, a: Id, pair: Id)
    requires Inv(db) && Poisoned(db, a, pair) && Allowed(db, s)
    ensures !SendsOn(db, s, pair)
  {
    assert SessionInv(db.tasks, db.attempts, db.sessions);
  }

  lemma UnknownDeliveryPoisons(db: DB, op: Id, at: Time)
    requires UnknownDeliveryAdmits(db, op)
    ensures Poisoned(UnknownDeliveryCommit(db, op, at), db.dispatches[op].bound.attempt, db.dispatches[op].bound.pair)
  {}

  /** From the commit of RecordUnknownDelivery until a clearance commits on the Pair, no run
      allocates an attempt or records a send intent on it. */
  lemma UnknownDeliveryLocksPair(states: seq<DB>, steps: seq<Step>, i: nat, j: nat, op: Id, at: Time)
    requires Run(states, steps) && i < j < |steps|
    requires steps[i] == DispatchStep(UnknownDelivery(op, at)) && op in states[i].dispatches
    requires var pair := states[i].dispatches[op].bound.pair; forall k | i < k < j :: !ClearsPair(steps[k], pair)
    ensures !SendsOn(states[j], steps[j], states[i].dispatches[op].bound.pair)
  {
    var b := states[i].dispatches[op].bound;
    assert StepAt(states, steps, i);
    UnknownStep(states[i], op, at);
    PoisonLasts(states, steps, i + 1, j, b.attempt, b.pair);
    LockedStep(states, steps, j, b.attempt, b.pair);
  }

  lemma UnknownStep(db: DB, op: Id, at: Time)
    requires Allowed(db, DispatchStep(UnknownDelivery(op, at)))
    ensures op in db.dispatches
    ensures Poisoned(Effect(db, DispatchStep(UnknownDelivery(op, at))), db.dispatches[op].bound.attempt, db.dispatches[op].bound.pair)
  { UnknownDeliveryPoisons(db, op, at); }

  lemma LockedStep(states: seq<DB>, steps: seq<Step>, j: nat, a: Id, pair: Id)
    requires Run(states, steps) && j < |steps| && Poisoned(states[j], a, pair)
    ensures !SendsOn(states[j], steps[j], pair)
  {
    hide Inv, Effect;
    assert StepAt(states, steps, j);
    Runs.Always(states, steps, j);
    PoisonBlocks(states[j], steps[j], a, pair);
  }

  // --- clearance --------------------------------------------------------------------------

  /** Right after a clearance commits the whole Pair is clean, and no other Pair has changed. */
  lemma ClearanceCleansPair(states: seq<DB>, steps: seq<Step>, i: nat, rq: Request)
    requires Run(states, steps) && i < |steps| && steps[i] == PairStep(Clear(rq))
    ensures PairClean(states[i + 1], rq.pair)
    ensures forall p | p in states[i].sessions && p != rq.pair :: p in states[i + 1].sessions && states[i + 1].sessions[p] == states[i].sessions[p]
    ensures forall a | a in states[i].attempts && !OnPair(states[i].tasks, states[i].attempts, a, rq.pair) ::
              a in states[i + 1].attempts && states[i + 1].attempts[a] == states[i].attempts[a]
  {
    hide Inv;
    assert StepAt(states, steps, i);
    Runs.Always(states, steps, i);
    StopsOrdered(states[i]);
    ClearMeansClean(states[i], states[i + 1], rq);
  }

  lemma StopsOrdered(db: DB)
    requires Inv(db)
    ensures OrderInv(db.stops, db.stopOrder)
  {}

  /** In every run the task-wide attempt check admits what a Pair-wide check would. */
  lemma TaskCheckSuffices(states: seq<DB>, steps: seq<Step>, i: nat, x: Allocation)
    requires Run(states, steps) && i <= |steps|
    ensures PrepareAdmits(states[i], x.task, x.contract, x.attempt, x.op, x.session, x.gen) <==> PrepareAdmitsPairWide(states[i], x)
  {
    hide Inv, Allowed, Effect, PrepareAdmits;
    Runs.Always(states, steps, i);
    TaskCheckIsPairWide(states[i], x);
  }
}
