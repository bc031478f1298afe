/** What the store guarantees about restores and generations over whole runs. */
module RestoreTheorems {
  import opened Domain
  import opened Tables
  import opened Invariants
  import opened History
  import opened Steps
  import RowEffects
  import Runs
  import StopTargets

  // --- open attempts run on the current generation --------------------------------------

  lemma OpenAttempt1(db: DB, a: Id, pair: Id)
    requires Inv(db) && OnPair(db.tasks, db.attempts, a, pair) && db.attempts[a].ended.None?
    ensures SessionIs(db.sessions, pair, db.attempts[a].lineage.session, db.attempts[a].lineage.gen)
    ensures !UnresolvedRestore(db.restores, pair)
  {
    assert SessionInv(db.tasks, db.attempts, db.sessions);
    assert RestoreExcludesOpen(db.tasks, db.attempts, db.restores);
  }

  /** The snapshot of an open attempt is its Pair's session now, and no restore is pending. */
  lemma OpenAttemptIsCurrent(states: seq<DB>, steps: seq<Step>, i: nat, a: Id, pair: Id)
    requires Run(states, steps) && i <= |steps|
    requires OnPair(states[i].tasks, states[i].attempts, a, pair) && states[i].attempts[a].ended.None?
    ensures SessionIs(states[i].sessions, pair, states[i].attempts[a].lineage.session, states[i].attempts[a].lineage.gen)
    ensures !UnresolvedRestore(states[i].restores, pair)
  {
    hide Inv, Allowed, Effect;
    Runs.Always(states, steps, i);
    OpenAttempt1(states[i], a, pair);
  }

  lemma UnresolvedRestore1(db: DB, r: Id, pair: Id)
    requires Inv(db) && Unresolved(db.restores, r, pair)
    ensures SessionIs(db.sessions, pair, db.restores[r].tuple.session, RuntimeGen(db.restores[r])) && db.sessions[pair].quarantined
    ensures !OpenAttemptOn(db, pair)
    ensures forall q | Unresolved(db.restores, q, pair) :: q == r
  {
    assert RestoreInv(db.restores, db.sessions) && RestoreExcludesOpen(db.tasks, db.attempts, db.restores);
  }

  /** While a restore is unresolved its Pair is quarantined, has nothing open and has no
      second unresolved restore. */
  lemma UnresolvedRestoreIsolates(states: seq<DB>, steps: seq<Step>, i: nat, r: Id, pair: Id)
    requires Run(states, steps) && i <= |steps| && Unresolved(states[i].restores, r, pair)
    ensures pair in states[i].sessions && states[i].sessions[pair].quarantined
    ensures !OpenAttemptOn(states[i], pair)
    ensures forall q | Unresolved(states[i].restores, q, pair) :: q == r
  {
    hide Inv, Allowed, Effect;
    Runs.Always(states, steps, i);
    UnresolvedRestore1(states[i], r, pair);
  }

  /** A generation changes only under an unresolved restore, so no open attempt is ever left
      behind on a replaced runtime. */
  lemma GenerationChangeStrandsNothing(states: seq<DB>, steps: seq<Step>, i: nat, pair: Id)
    requires Run(states, steps) && i < |steps|
    requires pair in states[i].sessions
    requires pair in states[i + 1].sessions ==> states[i + 1].sessions[pair].gen != states[i].sessions[pair].gen
    ensures steps[i].RestoreStep? && steps[i].restore.ConfirmRestore?
    ensures !OpenAttemptOn(states[i], pair) && !OpenAttemptOn(states[i + 1], pair)
  {
    hide Inv, Allowed, Effect, RowEffects.Finds, RowEffects.PairRows, RowEffects.OperationRows, Kept;
    Runs.Always(states, steps, i);
    assert StepAt(states, steps, i);
    RowEffects.StepMoves(states[i], steps[i]);
    if !StopTargets.Regenerates(states[i], steps[i], pair) {
      StopTargets.GenerationChangesOnConfirm(states[i], steps[i], states[i + 1], pair);
    } else {
      ConfirmLeavesUnresolved(states[i], steps[i], states[i + 1], pair);
      UnresolvedRestore1(states[i], steps[i].restore.op, pair);
      Runs.Always(states, steps, i + 1);
      UnresolvedRestore1(states[i + 1], steps[i].restore.op, pair);
    }
  }

  lemma ConfirmLeavesUnresolved(db: DB, s: Step, e: DB, pair: Id)
    requires RowEffects.Finds(db, s) && RowEffects.OperationRows(db, s, e) && StopTargets.Regenerates(db, s, pair)
    ensures Unresolved(db.restores, s.restore.op, pair) && Unresolved(e.restores, s.restore.op, pair)
  {
    assert RowEffects.Row(e.restores, s.restore.op) == RowEffects.RestoreAfter(db, s, s.restore.op);
  }

  // --- forward only, bounded ------------------------------------------------------------------

  lemma RestoreRow1(db: DB, r: Id)
    requires Inv(db) && r in db.restores
    ensures VersionFits(db.restores[r]) && RestoreChecks(db.restores[r]) && db.restores[r].version <= 5
  {
    assert RestoreInv(db.restores, db.sessions);
  }

  /** How many transactions of states[i..j] changed row r. */
  ghost function Changes(states: seq<DB>, r: Id, i: nat, j: nat): nat
    requires i <= j < |states|
    requires forall k | i <= k <= j :: r in states[k].restores
    decreases j - i
  {
    if i == j then 0
    else Changes(states, r, i, j - 1) + if states[j].restores[r] == states[j - 1].restores[r] then 0 else 1
  }

  lemma {:induction false} RestoreStays(states: seq<DB>, steps: seq<Step>, i: nat, j: nat, r: Id)
    requires Run(states, steps) && i <= j <= |steps| && r in states[i].restores
    ensures forall k | i <= k <= j :: r in states[k].restores
    decreases j - i
  {
    hide Allowed, Effect, LineagesKept;
    if i < j {
      assert StepAt(states, steps, j - 1);
      RestoreStays(states, steps, i, j - 1, r);
      StepHistory(states[j - 1], steps[j - 1]);
    }
  }

  /** Every change of a restore row passes the forward-only trigger and adds to its version,
      and the version never exceeds 5: each restore is changed by at most five transactions. */
  lemma {:induction false} RestoreTerminates(states: seq<DB>, steps: seq<Step>, i: nat, j: nat, r: Id)
    requires Run(states, steps) && i <= j <= |steps| && r in states[i].restores
    ensures forall k | i <= k <= j :: r in states[k].restores
    ensures states[i].restores[r].version + Changes(states, r, i, j) <= states[j].restores[r].version <= 5
    decreases j - i
  {
    hide Inv, Allowed, Effect, LineagesKept;
    RestoreStays(states, steps, i, j, r);
    Runs.Always(states, steps, j);
    RestoreRow1(states[j], r);
    if i < j {
      assert StepAt(states, steps, j - 1);
      RestoreTerminates(states, steps, i, j - 1, r);
      StepHistory(states[j - 1], steps[j - 1]);
      assert RestoreForward(states[j - 1].restores[r], states[j].restores[r]);
    }
  }

  /** Each commit is one or two UPDATEs that the trigger accepts, and the row passes its CHECKs. */
  lemma RestoreUpdatesAccepted(states: seq<DB>, steps: seq<Step>, i: nat, r: Id)
    requires Run(states, steps) && i < |steps| && r in states[i].restores
    ensures r in states[i + 1].restores && RestoreForward(states[i].restores[r], states[i + 1].restores[r])
    ensures RestoreChecks(states[i + 1].restores[r])
  {
    hide Inv, Allowed, Effect, LineagesKept, RestoreForward;
    assert StepAt(states, steps, i);
    StepHistory(states[i], steps[i]);
    Runs.Always(states, steps, i + 1);
    RestoreRow1(states[i + 1], r);
  }

  lemma LinkedStop1(db: DB, o: Id)
    requires Inv(db) && o in db.stops && db.stops[o].target.restore.Some?
    ensures var r := db.stops[o].target.restore.value;
      r in db.restores && (db.restores[r].resolution.RestoreResolved? ==> SettledResolution(db.stops[o].resolution))
    ensures forall k | k in db.stops && db.stops[k].target.restore == db.stops[o].target.restore :: k == o
  {
    assert StopOwners(db.stops, db.restores) && StopsUnique(db.stops);
    var r := db.stops[o].target.restore.value;
    forall k | k in db.stops && db.stops[k].target.restore == Some(r) ensures k == o {
      assert LinkedStop(db.stops, k, r) && LinkedStop(db.stops, o, r);
    }
  }

  /** A resolved restore has at most one linked stop, and that stop is settled. */
  lemma ResolvedRestoreHasSettledStop(states: seq<DB>, steps: seq<Step>, i: nat, o: Id)
    requires Run(states, steps) && i <= |steps| && o in states[i].stops && states[i].stops[o].target.restore.Some?
    ensures var r := states[i].stops[o].target.restore.value;
      r in states[i].restores && (states[i].restores[r].resolution.RestoreResolved? ==> SettledResolution(states[i].stops[o].resolution))
    ensures forall k | k in states[i].stops && states[i].stops[k].target.restore == states[i].stops[o].target.restore :: k == o
  {
    hide Inv, Allowed, Effect;
    Runs.Always(states, steps, i);
    LinkedStop1(states[i], o);
  }
}
