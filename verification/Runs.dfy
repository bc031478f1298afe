/** The invariants hold in every state of every run. */
module Runs {
  import opened Domain
  import opened Invariants
  import opened Steps
  import StepProofs
  import SagaProofs

  lemma EmptyLineage()
    ensures LineageInv(EMPTY_DB) && DispatchInv(EMPTY_DB) && SagaCore(EMPTY_DB)
  {}

  lemma EmptySessions()
    ensures SessionInv(EMPTY_DB.tasks, EMPTY_DB.attempts, EMPTY_DB.sessions) && ProvisionInv(EMPTY_DB.provisions, EMPTY_DB.sessions)
    ensures RestoreInv(EMPTY_DB.restores, EMPTY_DB.sessions)
    ensures RestoreExcludesOpen(EMPTY_DB.tasks, EMPTY_DB.attempts, EMPTY_DB.restores)
  {}

  lemma EmptyStops()
    ensures StopInv(EMPTY_DB)
  {}

  lemma EmptyInv()
    ensures SagaInv(EMPTY_DB)
  {
    hide LineageInv, DispatchInv, SessionInv, ProvisionInv, RestoreInv, RestoreExcludesOpen, StopInv, SagaCore;
    EmptyLineage();
    EmptySessions();
    EmptyStops();
  }

  /** Safety of the store: the invariant holds after any number of transactions. */
  lemma {:induction false} Always(states: seq<DB>, steps: seq<Step>, i: nat)
    requires Run(states, steps) && i <= |steps|
    ensures Inv(states[i])
  {
    hide Inv, SagaInv, Allowed, Effect;
    if i == 0 {
      EmptyInv();
      SagaProofs.SagaParts(EMPTY_DB);
    } else {
      assert StepAt(states, steps, i - 1);
      Always(states, steps, i - 1);
      StepProofs.StepKeeps(states[i - 1], steps[i - 1]);
    }
  }

  /** The saga part needs that only production steps were taken. */
  lemma {:induction false} SagaAlways(states: seq<DB>, steps: seq<Step>, i: nat)
    requires SagaRun(states, steps) && i <= |steps|
    ensures SagaInv(states[i])
  {
    hide Inv, SagaInv, Allowed, Effect;
    if i == 0 {
      EmptyInv();
    } else {
      assert StepAt(states, steps, i - 1);
      SagaAlways(states, steps, i - 1);
      SagaProofs.StepKeepsSaga(states[i - 1], steps[i - 1]);
    }
  }

  // --- building runs ------------------------------------------------------------------

  lemma Extend(states: seq<DB>, steps: seq<Step>, s: Step, e: DB)
    requires SagaRun(states, steps) && SagaStep(s) && Chain(states[|steps|], s, e)
    ensures SagaRun(states + [e], steps + [s])
  {
    hide Allowed, Effect, SagaStep;
    var more, all := states + [e], steps + [s];
    forall i | 0 <= i < |all| ensures StepAt(more, all, i) && SagaStep(all[i]) {
      assert i < |steps| ==> StepAt(states, steps, i);
      assert i < |steps| ==> more[i] == states[i] && more[i + 1] == states[i + 1] && all[i] == steps[i];
    }
  }
}
