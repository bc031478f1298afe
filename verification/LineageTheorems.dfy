/** What the store guarantees about tasks, contracts and attempts over whole runs. */
module LineageTheorems {
  import opened Domain
  import opened Tables
  import opened TaskTransactions
  import opened RecoveryTransactions
  import opened Invariants
  import opened Steps
  import Runs
  import SagaProofs

  // --- contract revisions -----------------------------------------------------------------

  predicate HasRevision(contracts: map<Id, Contract>, c: Id, task: Id, n: int, baseSha: Id) {
    c in contracts && contracts[c].task == task && contracts[c].revision == n && contracts[c].baseSha == baseSha
  }

  ghost predicate RevisionPresent(contracts: map<Id, Contract>, task: Id, n: int, baseSha: Id) {
    exists p :: HasRevision(contracts, p, task, n, baseSha)
  }

  /** Below revision n of a task every revision exists, frozen, under the same base SHA. */
  lemma {:induction false} EarlierRevisions(tasks: map<Id, Task>, contracts: map<Id, Contract>, c: Id, k: int) returns (p: Id)
    requires ContractRows(tasks, contracts) && c in contracts && 1 <= k <= contracts[c].revision
    ensures HasRevision(contracts, p, contracts[c].task, k, contracts[c].baseSha)
    ensures p == c || contracts[p].frozen
    decreases contracts[c].revision
  {
    p := c;
    if k < contracts[c].revision {
      p := EarlierRevisions(tasks, contracts, contracts[c].supersedes.value, k);
    }
  }

  /** The revisions of a task are exactly 1..n, one contract each, with one base SHA; each
      but the first supersedes its predecessor and only the last can still be mutable. */
  lemma RevisionsExact(states: seq<DB>, steps: seq<Step>, i: nat, c: Id, d: Id)
    requires Run(states, steps) && i <= |steps|
    requires c in states[i].contracts && d in states[i].contracts && states[i].contracts[c].task == states[i].contracts[d].task
    ensures var k := states[i].contracts;
      && k[c].baseSha == k[d].baseSha
      && (k[c].revision == k[d].revision ==> c == d)
      && (k[c].revision < k[d].revision ==> k[c].frozen)
      && (k[d].revision == k[c].revision + 1 ==> k[d].supersedes == Some(c))
      && 1 <= k[c].revision
    ensures forall n | 1 <= n <= states[i].contracts[c].revision ::
              RevisionPresent(states[i].contracts, states[i].contracts[c].task, n, states[i].contracts[c].baseSha)
  {
    hide Inv, Allowed, Effect;
    Runs.Always(states, steps, i);
    RevisionsExact1(states[i], c, d);
    RevisionsExact1(states[i], d, c);
    forall n | 1 <= n <= states[i].contracts[c].revision
      ensures RevisionPresent(states[i].contracts, states[i].contracts[c].task, n, states[i].contracts[c].baseSha)
    {
      var p := RevisionExists(states[i], c, n);
    }
  }

  lemma RevisionExists(db: DB, c: Id, n: int) returns (p: Id)
    requires Inv(db) && c in db.contracts && 1 <= n <= db.contracts[c].revision
    ensures HasRevision(db.contracts, p, db.contracts[c].task, n, db.contracts[c].baseSha)
  {
    p := EarlierRevisions(db.tasks, db.contracts, c, n);
  }

  lemma RevisionsExact1(db: DB, c: Id, d: Id)
    requires Inv(db) && c in db.contracts && d in db.contracts && db.contracts[c].task == db.contracts[d].task
    ensures var k := db.contracts;
      && (k[c].revision <= k[d].revision ==> k[c].baseSha == k[d].baseSha)
      && (k[c].revision == k[d].revision ==> c == d)
      && (k[c].revision < k[d].revision ==> k[c].frozen)
      && (k[d].revision == k[c].revision + 1 ==> k[d].supersedes == Some(c))
      && 1 <= k[c].revision
  {
    assert ContractRows(db.tasks, db.contracts) && RevisionsUnique(db.contracts);
    if db.contracts[c].revision <= db.contracts[d].revision {
      var p := EarlierRevisions(db.tasks, db.contracts, d, db.contracts[c].revision);
      assert p == c;
    }
  }

  // --- FAILED -> READY ----------------------------------------------------------------------

  function Later(contracts: map<Id, Contract>, task: Id, n: int): set<Id> {
    set k | k in contracts && contracts[k].task == task && contracts[k].revision > n
  }

  /** Some contract of the task has the greatest revision. */
  lemma {:induction false} LatestExists(contracts: map<Id, Contract>, task: Id, c: Id) returns (latest: Id)
    requires c in contracts && contracts[c].task == task
    ensures IsLatest(contracts, latest, task)
    decreases Later(contracts, task, contracts[c].revision)
  {
    var later := Later(contracts, task, contracts[c].revision);
    if later == {} {
      latest := c;
      forall k | k in contracts && contracts[k].task == task ensures contracts[k].revision <= contracts[c].revision {
        assert k !in later;
      }
    } else {
      var k :| k in later;
      assert k !in Later(contracts, task, contracts[k].revision);
      latest := LatestExists(contracts, task, k);
    }
  }

  /** A task that has been dispatched has an attempt, and so a contract. */
  lemma DispatchedHasContract(db: DB, task: Id) returns (c: Id)
    requires Inv(db) && task in db.tasks && FrozenState(db.tasks[task].state)
    ensures c in db.contracts && db.contracts[c].task == task
  {
    assert CurrentIsOpen(db.tasks, db.attempts) && AttemptRefs(db.tasks, db.contracts, db.attempts);
    assert Numbered(db.attempts, task, 1);
    var a :| HasNumber(db.attempts, a, task, 1);
    c := db.attempts[a].lineage.contract;
  }

  lemma FailedIsFrozen(db: DB, task: Id)
    requires Inv(db) && task in db.tasks && db.tasks[task].state.Failed?
    ensures ReadyContract(db, task, Failed)
  {
    hide ReadyContract, IsLatest;
    var c := DispatchedHasContract(db, task);
    var latest := LatestExists(db.contracts, task, c);
    LatestIsFrozen(db, task, latest);
  }

  lemma LatestIsFrozen(db: DB, task: Id, latest: Id)
    requires FrozenContracts(db.tasks, db.contracts) && IsLatest(db.contracts, latest, task)
    requires task in db.tasks && db.tasks[task].state.Failed?
    ensures ReadyContract(db, task, Failed)
  {}

  /** The immutability check of FAILED -> READY never rejects: every failed task may retry. */
  lemma FailedMayRetry(states: seq<DB>, steps: seq<Step>, i: nat, task: Id)
    requires Run(states, steps) && i <= |steps|
    ensures TransitionAdmits(states[i], task, Failed, Ready) <==> task in states[i].tasks && states[i].tasks[task].state.Failed?
  {
    hide Inv, Allowed, Effect;
    Runs.Always(states, steps, i);
    if task in states[i].tasks && states[i].tasks[task].state.Failed? {
      FailedIsFrozen(states[i], task);
    }
  }

  // --- lanes and attempt numbers ----------------------------------------------------------------

  lemma Attempts1(db: DB, task: Id)
    requires Inv(db) && task in db.tasks
    ensures forall a | a in db.attempts && db.attempts[a].lineage.task == task :: 1 <= db.attempts[a].lineage.number <= db.tasks[task].current
    ensures forall n: nat | 1 <= n <= db.tasks[task].current :: Numbered(db.attempts, task, n)
    ensures forall a, b, n: nat | HasNumber(db.attempts, a, task, n) && HasNumber(db.attempts, b, task, n) :: a == b
    ensures OpenState(db.tasks[task].state) ==> exists a :: CurrentOpen(db, task, a)
  {
    assert AttemptRefs(db.tasks, db.contracts, db.attempts) && CurrentIsOpen(db.tasks, db.attempts);
    assert NumbersComplete(db.tasks, db.attempts) && NumbersUnique(db.attempts);
    if OpenState(db.tasks[task].state) {
      assert Numbered(db.attempts, task, db.tasks[task].current);
      var a :| HasNumber(db.attempts, a, task, db.tasks[task].current);
      assert IsCurrent(db.tasks, db.attempts, a) && CurrentOpen(db, task, a);
    }
  }

  /** The attempts of a task are numbered exactly 1..current_attempt, once each, and from
      DISPATCHED to REVIEWING or BLOCKED the current one is open. */
  lemma AttemptNumbersExact(states: seq<DB>, steps: seq<Step>, i: nat, task: Id)
    requires Run(states, steps) && i <= |steps| && task in states[i].tasks
    ensures forall a | a in states[i].attempts && states[i].attempts[a].lineage.task == task ::
              1 <= states[i].attempts[a].lineage.number <= states[i].tasks[task].current
    ensures forall n: nat | 1 <= n <= states[i].tasks[task].current :: Numbered(states[i].attempts, task, n)
    ensures forall a, b, n: nat | HasNumber(states[i].attempts, a, task, n) && HasNumber(states[i].attempts, b, task, n) :: a == b
    ensures OpenState(states[i].tasks[task].state) ==> exists a :: CurrentOpen(states[i], task, a)
  {
    hide Inv, Allowed, Effect;
    Runs.Always(states, steps, i);
    Attempts1(states[i], task);
  }

  lemma Lane1(db: DB)
    requires Inv(db)
    ensures OneLane(db.tasks) && RevisionsMonotone(db.contracts, db.attempts)
    ensures forall a | a in db.attempts :: db.attempts[a].lineage.contract in db.contracts && db.contracts[db.attempts[a].lineage.contract].frozen
  {
    assert AttemptRefs(db.tasks, db.contracts, db.attempts);
  }

  /** A Pair's lane holds one task; an attempt's contract is frozen and later attempts never
      run an earlier revision. */
  lemma OneLaneAlways(states: seq<DB>, steps: seq<Step>, i: nat)
    requires Run(states, steps) && i <= |steps|
    ensures OneLane(states[i].tasks) && RevisionsMonotone(states[i].contracts, states[i].attempts)
    ensures forall a | a in states[i].attempts ::
              var c := states[i].attempts[a].lineage.contract; c in states[i].contracts && states[i].contracts[c].frozen
  {
    hide Inv, Allowed, Effect;
    Runs.Always(states, steps, i);
    Lane1(states[i]);
  }

  // --- the recovery queries --------------------------------------------------------------------------

  /** ClassifyRestartRecovery: a DISPATCHED task without an open current attempt. */
  predicate RestartInconsistent(db: DB) {
    exists t | t in db.tasks :: db.tasks[t].state.Dispatched? && forall a | a in db.attempts :: !CurrentOpen(db, t, a)
  }

  lemma RestartRecoveryConsistent(states: seq<DB>, steps: seq<Step>, i: nat)
    requires Run(states, steps) && i <= |steps|
    ensures !RestartInconsistent(states[i])
  {
    hide Inv, Allowed, Effect;
    Runs.Always(states, steps, i);
    forall t | t in states[i].tasks && states[i].tasks[t].state.Dispatched? ensures exists a :: CurrentOpen(states[i], t, a) {
      Attempts1(states[i], t);
    }
  }

  lemma SnapshotRowExists(db: DB, t: Id)
    requires Inv(db) && t in db.tasks && OpenState(db.tasks[t].state)
    ensures SnapshotJoined(db, t)
  {
    Attempts1(db, t);
    var a :| CurrentOpen(db, t, a);
    assert DispatchComplete(db.attempts, db.dispatches) && DispatchRefs(db.tasks, db.attempts, db.dispatches);
    var d :| Invariants.Dispatches(db.dispatches, d, a);
    assert SnapshotRow(db, t, a, d);
  }

  lemma SnapshotRowSent(db: DB, t: Id, a: Id, d: Id)
    requires SagaInv(db) && SnapshotRow(db, t, a, d) && (db.tasks[t].state.Running? || db.tasks[t].state.Blocked?)
    ensures db.dispatches[d].stage.SendConfirmed?
  {
    assert SendsConfirmed(db.tasks, db.attempts, db.dispatches);
  }

  /** With saga steps alone the snapshot query never finds an inconsistent row. */
  lemma SnapshotConsistent(states: seq<DB>, steps: seq<Step>, i: nat)
    requires SagaRun(states, steps) && i <= |steps|
    ensures !SnapshotInconsistent(states[i])
  {
    hide SagaInv, Allowed, Effect;
    Runs.SagaAlways(states, steps, i);
    SnapshotConsistent1(states[i]);
  }

  lemma SnapshotConsistent1(db: DB)
    requires SagaInv(db)
    ensures !SnapshotInconsistent(db)
  {
    hide Inv, SagaInv;
    SagaProofs.SagaParts(db);
    forall t | t in db.tasks && db.tasks[t].state in {Dispatched, Running, Blocked} ensures SnapshotJoined(db, t) {
      SnapshotRowExists(db, t);
    }
    forall t, a, d | SnapshotRow(db, t, a, d) && (db.tasks[t].state.Running? || db.tasks[t].state.Blocked?)
      ensures db.dispatches[d].stage.SendConfirmed?
    {
      SnapshotRowSent(db, t, a, d);
    }
  }
}
