/** Task, contract and provisioning transactions keep the invariants. */
module TaskProofs {
  import opened Domain
  import opened Tables
  import opened TaskTransactions
  import opened ProvisioningTransactions
  import opened Invariants
  import opened Shapes

  // --- CreateTask ---------------------------------------------------------------------

  lemma CreateLineage(db: DB, task: Id, pair: Id)
    requires CreateTaskAdmits(db, task) && LineageInv(db)
    ensures LineageInv(CreateTaskCommit(db, task, pair))
  {
    CreateNumbers(db, task, pair);
    CreateOpen(db, task, pair);
  }

  lemma CreateOpen(db: DB, task: Id, pair: Id)
    requires CreateTaskAdmits(db, task)
    requires AttemptRefs(db.tasks, db.contracts, db.attempts) && CurrentIsOpen(db.tasks, db.attempts)
    ensures var e := CreateTaskCommit(db, task, pair); CurrentIsOpen(e.tasks, e.attempts)
  {
    var e := CreateTaskCommit(db, task, pair);
    forall k | k in e.attempts && IsCurrent(e.tasks, e.attempts, k) ensures IsCurrent(db.tasks, db.attempts, k) {}
  }

  lemma CreateNumbers(db: DB, task: Id, pair: Id)
    requires CreateTaskAdmits(db, task) && NumbersComplete(db.tasks, db.attempts)
    ensures var e := CreateTaskCommit(db, task, pair); NumbersComplete(e.tasks, e.attempts)
  {
    var e := CreateTaskCommit(db, task, pair);
    forall k, n: nat | k in e.tasks && 1 <= n <= e.tasks[k].current ensures Numbered(e.attempts, k, n) {
      assert Numbered(db.attempts, k, n);
    }
  }

  lemma CreateOperations(db: DB, task: Id, pair: Id)
    requires CreateTaskAdmits(db, task) && AttemptRefs(db.tasks, db.contracts, db.attempts)
    requires SessionInv(db.tasks, db.attempts, db.sessions) && DispatchInv(db)
    requires RestoreExcludesOpen(db.tasks, db.attempts, db.restores)
    ensures var e := CreateTaskCommit(db, task, pair);
      SessionInv(e.tasks, e.attempts, e.sessions) && DispatchInv(e) && RestoreExcludesOpen(e.tasks, e.attempts, e.restores)
  {
    var e := CreateTaskCommit(db, task, pair);
    forall a, p | OnPair(e.tasks, e.attempts, a, p) ensures OnPair(db.tasks, db.attempts, a, p) {}
  }

  lemma CreateStops(db: DB, task: Id, pair: Id)
    requires CreateTaskAdmits(db, task) && StopInv(db)
    ensures StopInv(CreateTaskCommit(db, task, pair))
  {
    var e := CreateTaskCommit(db, task, pair);
    forall o | o in db.stops ensures StopRefs(e.tasks, e.attempts, e.sessions, db.stops[o].target) {
      assert StopRefs(db.tasks, db.attempts, db.sessions, db.stops[o].target);
    }
    SameStopsKept(db, e);
  }

  lemma CreateKeeps(db: DB, task: Id, pair: Id)
    requires Inv(db) && CreateTaskAdmits(db, task)
    ensures Inv(CreateTaskCommit(db, task, pair))
  {
    CreateLineage(db, task, pair);
    CreateOperations(db, task, pair);
    CreateStops(db, task, pair);
  }

  lemma CreateSaga(db: DB, task: Id, pair: Id)
    requires CreateTaskAdmits(db, task) && AttemptRefs(db.tasks, db.contracts, db.attempts)
    requires DispatchRefs(db.tasks, db.attempts, db.dispatches) && SagaCore(db)
    ensures SagaCore(CreateTaskCommit(db, task, pair))
  {
    var e := CreateTaskCommit(db, task, pair);
    forall a | a in db.attempts && IsCurrent(e.tasks, e.attempts, a) ensures IsCurrent(db.tasks, db.attempts, a) {}
    forall o | o in e.stops && e.stops[o].target.purpose.RunningAttemptStop? && e.stops[o].resolution.InFlight?
      ensures LiveStopHolds(e.tasks, e.attempts, e.stops[o].target)
    {
      assert LiveStopHolds(db.tasks, db.attempts, db.stops[o].target);
    }
  }

  // --- InsertTaskContract ----------------------------------------------------------------

  lemma InsertRows(db: DB, id: Id, task: Id, revision: int, supersedes: Option<Id>, baseSha: Id)
    requires InsertContractAdmits(db, id, task, revision, supersedes, baseSha) && ContractRows(db.tasks, db.contracts)
    ensures var e := InsertContractCommit(db, id, task, revision, supersedes, baseSha); ContractRows(e.tasks, e.contracts)
  {
  }

  lemma InsertUnique(db: DB, id: Id, task: Id, revision: int, supersedes: Option<Id>, baseSha: Id)
    requires InsertContractAdmits(db, id, task, revision, supersedes, baseSha)
    requires RevisionsUnique(db.contracts) && FrozenContracts(db.tasks, db.contracts)
    ensures var e := InsertContractCommit(db, id, task, revision, supersedes, baseSha);
      RevisionsUnique(e.contracts) && FrozenContracts(e.tasks, e.contracts)
  {
  }

  lemma InsertRefs(db: DB, id: Id, task: Id, revision: int, supersedes: Option<Id>, baseSha: Id)
    requires InsertContractAdmits(db, id, task, revision, supersedes, baseSha)
    requires AttemptRefs(db.tasks, db.contracts, db.attempts) && RevisionsMonotone(db.contracts, db.attempts)
    ensures var e := InsertContractCommit(db, id, task, revision, supersedes, baseSha);
      AttemptRefs(e.tasks, e.contracts, e.attempts) && RevisionsMonotone(e.contracts, e.attempts)
  {
  }

  lemma InsertKeeps(db: DB, id: Id, task: Id, revision: int, supersedes: Option<Id>, baseSha: Id)
    requires Inv(db) && InsertContractAdmits(db, id, task, revision, supersedes, baseSha)
    ensures var e := InsertContractCommit(db, id, task, revision, supersedes, baseSha);
      Inv(e) && (SagaCore(db) ==> SagaCore(e))
  {
    InsertRows(db, id, task, revision, supersedes, baseSha);
    InsertUnique(db, id, task, revision, supersedes, baseSha);
    InsertRefs(db, id, task, revision, supersedes, baseSha);
  }

  // --- TransitionTask ------------------------------------------------------------------------

  predicate TransitionStep(db: DB, e: DB, task: Id, from: TaskState, to: TaskState) {
    TransitionAdmits(db, task, from, to) && e == TransitionCommit(db, task, to)
  }

  lemma TransitionNumbers(db: DB, e: DB, task: Id, from: TaskState, to: TaskState)
    requires TransitionStep(db, e, task, from, to) && NumbersComplete(db.tasks, db.attempts)
    ensures NumbersComplete(e.tasks, e.attempts)
  {
    forall k, n: nat | k in e.tasks && 1 <= n <= e.tasks[k].current ensures Numbered(e.attempts, k, n) {
      assert Numbered(db.attempts, k, n);
    }
  }

  /** No edge enters a frozen state from a state in which contracts are inserted. */
  lemma TransitionFreezes(db: DB, e: DB, task: Id, from: TaskState, to: TaskState)
    requires TransitionStep(db, e, task, from, to) && FrozenContracts(db.tasks, db.contracts)
    ensures FrozenContracts(e.tasks, e.contracts)
  {
  }

  lemma TransitionContracts(db: DB, e: DB, task: Id, from: TaskState, to: TaskState)
    requires TransitionStep(db, e, task, from, to) && ContractLineage(db.tasks, db.contracts)
    ensures ContractLineage(e.tasks, e.contracts)
  {
    TransitionFreezes(db, e, task, from, to);
  }

  lemma TransitionOpen(db: DB, e: DB, task: Id, from: TaskState, to: TaskState)
    requires TransitionStep(db, e, task, from, to)
    requires AttemptRefs(db.tasks, db.contracts, db.attempts) && CurrentIsOpen(db.tasks, db.attempts)
    ensures AttemptRefs(e.tasks, e.contracts, e.attempts) && CurrentIsOpen(e.tasks, e.attempts)
  {
    forall k | k in e.attempts && IsCurrent(e.tasks, e.attempts, k) && OpenState(e.tasks[e.attempts[k].lineage.task].state)
      ensures e.attempts[k].ended.None?
    {
      assert IsCurrent(db.tasks, db.attempts, k);
    }
  }

  lemma TransitionLane(db: DB, e: DB, task: Id, from: TaskState, to: TaskState)
    requires TransitionStep(db, e, task, from, to) && OneLane(db.tasks)
    ensures OneLane(e.tasks)
  {}

  lemma TransitionOperations(db: DB, e: DB, task: Id, from: TaskState, to: TaskState)
    requires TransitionStep(db, e, task, from, to)
    requires SessionInv(db.tasks, db.attempts, db.sessions) && DispatchInv(db)
    requires RestoreExcludesOpen(db.tasks, db.attempts, db.restores)
    ensures SessionInv(e.tasks, e.attempts, e.sessions) && DispatchInv(e) && RestoreExcludesOpen(e.tasks, e.attempts, e.restores)
  {
    forall a, p | OnPair(e.tasks, e.attempts, a, p) ensures OnPair(db.tasks, db.attempts, a, p) {}
  }

  lemma TransitionStops(db: DB, e: DB, task: Id, from: TaskState, to: TaskState)
    requires TransitionStep(db, e, task, from, to) && StopInv(db)
    ensures StopInv(e)
  {
    forall o | o in db.stops ensures StopRefs(e.tasks, e.attempts, e.sessions, db.stops[o].target) {
      assert StopRefs(db.tasks, db.attempts, db.sessions, db.stops[o].target);
    }
    SameStopsKept(db, e);
  }

  lemma TransitionKeeps(db: DB, e: DB, task: Id, from: TaskState, to: TaskState)
    requires Inv(db) && TransitionStep(db, e, task, from, to)
    ensures Inv(e)
  {
    TransitionNumbers(db, e, task, from, to);
    TransitionContracts(db, e, task, from, to);
    TransitionOpen(db, e, task, from, to);
    TransitionLane(db, e, task, from, to);
    TransitionOperations(db, e, task, from, to);
    TransitionStops(db, e, task, from, to);
  }

  /** Out of DISPATCHED and RUNNING only the saga's own transactions move a task. */
  lemma TransitionSaga(db: DB, e: DB, task: Id, from: TaskState, to: TaskState)
    requires TransitionStep(db, e, task, from, to) && !from.Dispatched? && !from.Running?
    requires DispatchRefs(db.tasks, db.attempts, db.dispatches) && SagaCore(db)
    ensures SagaCore(e)
  {
    forall d | d in e.dispatches && IsCurrent(e.tasks, e.attempts, e.dispatches[d].bound.attempt)
      ensures IsCurrent(db.tasks, db.attempts, db.dispatches[d].bound.attempt)
    {}
    forall o | o in e.stops && e.stops[o].target.purpose.RunningAttemptStop? && e.stops[o].resolution.InFlight?
      ensures LiveStopHolds(e.tasks, e.attempts, e.stops[o].target)
    {
      assert LiveStopHolds(db.tasks, db.attempts, db.stops[o].target);
    }
  }

  // --- provisioning -------------------------------------------------------------------------------

  /** One provisioning row changes; a session appears exactly when it is confirmed. */
  ghost predicate ProvisionStep(db: DB, e: DB) {
    && e == db.(provisions := e.provisions, sessions := e.sessions, log := e.log) && db.log <= e.log
    && (forall p | p in db.sessions :: p in e.sessions && e.sessions[p] == db.sessions[p])
    && ProvisionInv(e.provisions, e.sessions)
  }

  lemma ProvisionKeeps(db: DB, e: DB)
    requires Inv(db) && ProvisionStep(db, e)
    ensures Inv(e)
  {
    ProvisionSessions(db, e);
    ProvisionStops(db, e);
  }

  lemma ProvisionSessions(db: DB, e: DB)
    requires ProvisionStep(db, e)
    requires SessionInv(db.tasks, db.attempts, db.sessions) && RestoreInv(db.restores, db.sessions)
    ensures SessionInv(e.tasks, e.attempts, e.sessions) && RestoreInv(e.restores, e.sessions)
  {
  }

  lemma ProvisionStops(db: DB, e: DB)
    requires ProvisionStep(db, e) && StopInv(db)
    ensures StopInv(e)
  {
    forall o | o in db.stops ensures StopRefs(e.tasks, e.attempts, e.sessions, db.stops[o].target) {
      assert StopRefs(db.tasks, db.attempts, db.sessions, db.stops[o].target);
    }
    SameStopsKept(db, e);
  }

  /** A Pair without a session and without an unresolved intent has never been provisioned. */
  lemma ReserveProvisionLocal(db: DB, op: Id, pair: Id)
    requires ProvisionInv(db.provisions, db.sessions) && ReserveProvisionAdmits(db, op, pair)
    ensures ProvisionStep(db, ReserveProvisionCommit(db, op, pair))
  {
    var e := ReserveProvisionCommit(db, op, pair);
    forall p | p in db.provisions ensures db.provisions[p].pair != pair {}
    forall k | k in e.sessions ensures exists p :: Provisions(e.provisions, p, k) {
      var p :| Provisions(db.provisions, p, k);
      assert Provisions(e.provisions, p, k);
    }
  }

  lemma ConfirmProvisionLocal(db: DB, op: Id, pair: Id, s: Session)
    requires ProvisionInv(db.provisions, db.sessions) && ConfirmProvisionAdmits(db, op, pair, s)
    ensures ProvisionStep(db, ConfirmProvisionCommit(db, op, pair, s))
  {
    var e := ConfirmProvisionCommit(db, op, pair, s);
    forall k | k in e.sessions ensures exists p :: Provisions(e.provisions, p, k) {
      if k == pair {
        assert Provisions(e.provisions, op, k);
      } else {
        var p :| Provisions(db.provisions, p, k);
        assert Provisions(e.provisions, p, k);
      }
    }
  }

  lemma FailProvisionLocal(db: DB, op: Id)
    requires ProvisionInv(db.provisions, db.sessions) && FailProvisionAdmits(db, op)
    ensures ProvisionStep(db, FailProvisionCommit(db, op))
  {
    var e := FailProvisionCommit(db, op);
    forall k | k in e.sessions ensures exists p :: Provisions(e.provisions, p, k) {
      var p :| Provisions(db.provisions, p, k);
      assert Provisions(e.provisions, p, k);
    }
  }

  lemma ReserveProvisionKeeps(db: DB, op: Id, pair: Id)
    requires Inv(db) && ReserveProvisionAdmits(db, op, pair)
    ensures Inv(ReserveProvisionCommit(db, op, pair))
  {
    ReserveProvisionLocal(db, op, pair);
    ProvisionKeeps(db, ReserveProvisionCommit(db, op, pair));
  }

  lemma ConfirmProvisionKeeps(db: DB, op: Id, pair: Id, s: Session)
    requires Inv(db) && ConfirmProvisionAdmits(db, op, pair, s)
    ensures Inv(ConfirmProvisionCommit(db, op, pair, s))
  {
    ConfirmProvisionLocal(db, op, pair, s);
    ProvisionKeeps(db, ConfirmProvisionCommit(db, op, pair, s));
  }

  lemma FailProvisionKeeps(db: DB, op: Id)
    requires Inv(db) && FailProvisionAdmits(db, op)
    ensures Inv(FailProvisionCommit(db, op))
  {
    FailProvisionLocal(db, op);
    ProvisionKeeps(db, FailProvisionCommit(db, op));
  }

  lemma UpdateStatusStops(db: DB, pair: Id, expected: SessionStatus, quarantined: bool, status: SessionStatus)
    requires StopInv(db) && UpdateStatusAdmits(db, pair, expected, quarantined)
    ensures var e := UpdateStatusCommit(db, pair, status); StopInv(e) && SessionStep(db, e, pair)
  {
    var e := UpdateStatusCommit(db, pair, status);
    SessionRefs(db, e, pair);
    SameStopsKept(db, e);
  }

  lemma UpdateStatusKeeps(db: DB, pair: Id, expected: SessionStatus, quarantined: bool, status: SessionStatus)
    requires Inv(db) && UpdateStatusAdmits(db, pair, expected, quarantined)
    ensures Inv(UpdateStatusCommit(db, pair, status))
  {
    UpdateStatusStops(db, pair, expected, quarantined, status);
    SessionKeepsInv(db, UpdateStatusCommit(db, pair, status), pair);
  }
}
