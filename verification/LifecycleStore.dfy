/** Task, contract, provisioning and recovery transactions as the store runs them. */
module LifecycleStore {
  import opened Domain
  import opened Tables
  import opened Workflow
  import opened TaskTransactions
  import opened ProvisioningTransactions
  import opened RecoveryTransactions

  // --- tasks and contracts ----------------------------------------------------------------

  method InsertTaskContract(s: Store, id: Id, task: Id, revision: int, supersedes: Option<Id>, baseSha: Id) returns (err: Error)
    modifies s
    ensures err.Nil? <==> InsertContractAdmits(old(s.db), id, task, revision, supersedes, baseSha)
    ensures s.db == if err.Nil? then InsertContractCommit(old(s.db), id, task, revision, supersedes, baseSha) else old(s.db)
  {
    if revision < 1 { return Invalid; }
    var tx := s.db;
    if task !in tx.tasks { return NotFound; }
    var state := tx.tasks[task].state;
    if revision == 1 {
      if !state.Draft? || supersedes.Some? { return StateConflict; }
    } else {
      if !state.RevisionRequired? && !state.Draft? { return StateConflict; }
      if supersedes.None? || supersedes.value !in tx.contracts { return LineageMismatch; }
      var prev := tx.contracts[supersedes.value];
      if prev.task != task || prev.revision != revision - 1 || prev.baseSha != baseSha || !prev.frozen { return LineageMismatch; }
    }
    // INSERT: primary key and the two unique indexes
    if id in tx.contracts || exists c | c in tx.contracts :: tx.contracts[c].task == task && tx.contracts[c].revision == revision {
      return StateConflict;
    }
    if supersedes.Some? && exists c | c in tx.contracts :: tx.contracts[c].supersedes == supersedes { return StateConflict; }
    tx := tx.(contracts := tx.contracts[id := Contract(task, revision, supersedes, baseSha, false)]);
    s.db := tx;
    return Nil;
  }

  method TransitionTask(s: Store, task: Id, from: TaskState, to: TaskState) returns (err: Error)
    requires UniqueRevisions(s.db.contracts, task)  // UNIQUE(task_id, revision_number)
    modifies s
    ensures err.Nil? <==> TransitionAdmits(old(s.db), task, from, to)
    ensures s.db == if TransitionAdmits(old(s.db), task, from, to) then TransitionCommit(old(s.db), task, to) else old(s.db)
  {
    hide ReadyContract, LaneBusy, CanTransition, UniqueRevisions;
    if from.Ready? && to.Dispatched? { return Invalid; }
    if !CanTransition(from, to) { return Invalid; }
    var tx := s.db;
    if task !in tx.tasks { return NotFound; }
    if tx.tasks[task].state != from { return StateConflict; }
    if to.Ready? {
      err := CheckReadyContract(tx, task, from);
      if !err.Nil? { return; }
    }
    if to.Running? || to.Reviewing? {
      if LaneBusy(tx.tasks, tx.tasks[task].pair, task) { return StateConflict; }
    }
    tx := tx.(tasks := tx.tasks[task := tx.tasks[task].(state := to)]);
    s.db := tx;
    return Nil;
  }

  /** The READY-entry check of the latest contract. */
  method CheckReadyContract(db: DB, task: Id, from: TaskState) returns (err: Error)
    requires UniqueRevisions(db.contracts, task)
    ensures err.Nil? <==> ReadyContract(db, task, from)
  {
    if c :| c in db.contracts && IsLatest(db.contracts, c, task) {
      LatestFreezesAlike(db.contracts, c, task);
      var frozen := db.contracts[c].frozen;
      match from {
        case Draft => return if frozen then StateConflict else Nil;
        case RevisionRequired => return if frozen then StateConflict else Nil;
        case Failed => return if frozen then Nil else StateConflict;
        case _ => return StateConflict;
      }
    } else {
      return StateConflict;
    }
  }

  /** ORDER BY revision_number DESC LIMIT 1 over rows whose (task, revision) is unique. */
  predicate UniqueRevisions(contracts: map<Id, Contract>, task: Id) {
    forall c, k | c in contracts && k in contracts ::
      contracts[c].task == task && contracts[k].task == task && contracts[c].revision == contracts[k].revision ==> c == k
  }

  lemma LatestFreezesAlike(contracts: map<Id, Contract>, c: Id, task: Id)
    requires UniqueRevisions(contracts, task) && IsLatest(contracts, c, task)
    ensures forall k | k in contracts && IsLatest(contracts, k, task) :: k == c
  {}

  // --- provisioning --------------------------------------------------------------------------

  method ReservePairProvisioning(s: Store, op: Id, pair: Id) returns (err: Error)
    modifies s
    ensures err.Nil? <==> ReserveProvisionAdmits(old(s.db), op, pair)
    ensures s.db == if err.Nil? then ReserveProvisionCommit(old(s.db), op, pair) else old(s.db)
  {
    var tx := s.db;
    if pair in tx.sessions { return StateConflict; }
    if UnresolvedRestore(tx.restores, pair) || UnresolvedProvision(tx.provisions, pair) || PendingStopOn(tx.stops, pair) { return Quarantined; }
    if OpenAttemptOn(tx, pair) { return Quarantined; }
    if exists t | t in tx.tasks && tx.tasks[t].pair == pair ::
         || (tx.tasks[t].current > 0 && !CurrentExists(tx, t))
         || (tx.tasks[t].state in {Dispatched, Running, Blocked, Reviewing} && (tx.tasks[t].current == 0 || !CurrentExists(tx, t))) {
      return Quarantined;
    }
    if QuarantinedAttemptOn(tx, pair) { return Quarantined; }
    if op in tx.provisions { return StateConflict; }
    tx := tx.(provisions := tx.provisions[op := Provision(pair, ProvisionRequested, None)]);
    tx := tx.(log := tx.log + [Note(ProvisionRequestedNote, op)]);
    s.db := tx;
    return Nil;
  }

  method ConfirmPairProvisioning(s: Store, op: Id, pair: Id, row: Session) returns (err: Error)
    modifies s
    ensures err.Nil? <==> ConfirmProvisionAdmits(old(s.db), op, pair, row)
    ensures s.db == if err.Nil? then ConfirmProvisionCommit(old(s.db), op, pair, row) else old(s.db)
  {
    var tx := s.db;
    if op !in tx.provisions || !tx.provisions[op].stage.ProvisionRequested? { return StateConflict; }
    if tx.provisions[op].pair != pair { return StateConflict; }
    tx := tx.(log := tx.log + [Note(ProvisionedNote, op)]);
    tx := tx.(provisions := tx.provisions[op := tx.provisions[op].(stage := ProvisionConfirmed, session := Some(row.session))]);
    if pair in tx.sessions || exists p | p in tx.sessions :: tx.sessions[p].session == row.session { return StateConflict; }
    tx := tx.(sessions := tx.sessions[pair := row]);
    s.db := tx;
    return Nil;
  }

  method FailPairProvisioning(s: Store, op: Id) returns (err: Error)
    modifies s
    ensures err.Nil? <==> FailProvisionAdmits(old(s.db), op)
    ensures s.db == if err.Nil? then FailProvisionCommit(old(s.db), op) else old(s.db)
  {
    var tx := s.db;
    if op !in tx.provisions || !tx.provisions[op].stage.ProvisionRequested? { return StateConflict; }
    tx := tx.(log := tx.log + [Note(ProvisionFailedNote, op)]);
    tx := tx.(provisions := tx.provisions[op := tx.provisions[op].(stage := ProvisionFailed)]);
    s.db := tx;
    return Nil;
  }

  method FailProvisioningAtStartup(s: Store, op: Id) returns (err: Error)
    modifies s
    ensures err.Nil? <==> op in old(s.db).provisions && (old(s.db).provisions[op].stage.ProvisionFailed? || FailProvisionAdmits(old(s.db), op))
    ensures s.db == if FailProvisionAdmits(old(s.db), op) then FailProvisionCommit(old(s.db), op) else old(s.db)
  {
    if op !in s.db.provisions { return NotFound; }
    if s.db.provisions[op].stage.ProvisionFailed? { return Nil; }
    err := FailPairProvisioning(s, op);
  }

  // --- observations of an execution -----------------------------------------------------------

  method RecordPostSendOutage(s: Store, x: Execution) returns (err: Error)
    modifies s
    ensures err.Nil? <==> OutageReplayed(old(s.db), x) || OutageAdmits(old(s.db), x)
    ensures s.db == if OutageAdmits(old(s.db), x) then OutageCommit(old(s.db), x) else old(s.db)
  {
    var tx := s.db;
    if !HasExecution(tx, x.op) { return NotFound; }
    var now := ExecutionOf(tx, x.op);
    if now != x || !now.stage.SendConfirmed? || (!now.state.Dispatched? && !now.state.Running?) { return StateConflict; }
    if StopOwned(tx.stops, now) { return StateConflict; }
    if !SessionIs(tx.sessions, now.pair, now.session, now.gen) { return LineageMismatch; }
    if now.disposition.Some? {
      return if now.disposition.value.RecoveryPending? then Nil else StateConflict;
    }
    var a := tx.attempts[now.attempt];
    if a.lineage.session != now.session || a.lineage.gen != now.gen { return StateConflict; }
    tx := tx.(attempts := tx.attempts[now.attempt := a.(disposition := Some(RecoveryPending))]);
    if !AuditLineage(tx, now.pair, now.task, now.contract, now.attempt) { return LineageMismatch; }
    tx := tx.(log := tx.log + [Note(PostSendPendingNote, x.op)]);
    s.db := tx;
    return Nil;
  }

  method ObservePostSend(s: Store, x: Execution, seen: PostSend, at: Time) returns (err: Error)
    modifies s
    ensures err.Nil? <==> ObserveAdmits(old(s.db), x, seen) || ObserveSkips(old(s.db), x, seen)
    ensures s.db == if ObserveAdmits(old(s.db), x, seen) then ObserveCommit(old(s.db), x, seen, at) else old(s.db)
  {
    if !x.stage.SendConfirmed? || seen.session != x.session { return StateConflict; }
    var tx := s.db;
    if !HasExecution(tx, x.op) || tx.dispatches[x.op].unknown { return NotFound; }
    var now := ExecutionOf(tx, x.op);
    if now != x || (!now.state.Dispatched? && !now.state.Running?) { return StateConflict; }
    if StopOwned(tx.stops, now) { return StateConflict; }
    if now.pair !in tx.sessions { return NotFound; }
    var w := tx.sessions[now.pair];
    if w.session != now.session || (w.gen != now.gen && seen.LiveRuntime? && seen.gen == now.gen) { return LineageMismatch; }
    var terminal := TerminalDisposition(now, seen);
    var was := now.disposition;
    if was.Some? && !was.value.RecoveryPending? && terminal.None? { return Nil; }
    if tx.tasks[now.task].pair != now.pair || tx.attempts[now.attempt].lineage.session != now.session
       || tx.attempts[now.attempt].lineage.gen != now.gen || !AuditLineage(tx, now.pair, now.task, now.contract, now.attempt) {
      return StateConflict;
    }
    tx := ObserveTx(tx, now, seen, at);
    s.db := tx;
    return Nil;
  }

  /** The writes of an observation that is not ignored. */
  method ObserveTx(db: DB, x: Execution, seen: PostSend, at: Time) returns (tx: DB)
    requires ExecutionUnchanged(db, x) && x.pair in db.sessions && !ObserveIgnored(x, seen)
    ensures tx == ObserveCommit(db, x, seen, at)
  {
    tx := db;
    var events: seq<Event> := [];
    if x.disposition == Some(RecoveryPending) { events := events + [Note(PostSendRecoveredNote, x.op)]; }
    var state := ObservedState(x, seen);
    if state != x.state {
      tx := tx.(tasks := tx.tasks[x.task := tx.tasks[x.task].(state := state)]);
      events := events + [TaskTransitionEvent(x.pair, x.task, x.attempt, x.state, state, Some(x.op))];
    }
    assert tx.tasks == db.tasks[x.task := db.tasks[x.task].(state := state)];
    tx := ObserveRowsTx(tx, x, seen, at);
    if TerminalDisposition(x, seen).None? && seen.activity.ActivityBlocked? { events := events + [Note(BlockedOnDecisionNote, x.op)]; }
    if seen.LiveRuntime? && seen.gen == x.gen && !seen.terminated && x.state.Dispatched? && seen.activity.ActivityIdle? {
      events := events + [Note(MissedWindowNote, x.op)];
    }
    assert events == ObserveEvents(x, seen);
    tx := tx.(log := tx.log + events);
  }

  /** The attempt and session rows of an observation. */
  method ObserveRowsTx(db: DB, x: Execution, seen: PostSend, at: Time) returns (tx: DB)
    requires x.attempt in db.attempts && x.pair in db.sessions
    ensures tx == db.(attempts := db.attempts[x.attempt := ObserveRow(db.attempts[x.attempt], x, seen, at)],
                      sessions := db.sessions[x.pair := ObserveSession(db.sessions[x.pair], x, seen)])
  {
    tx := db;
    var terminal := TerminalDisposition(x, seen);
    var a, w := tx.attempts[x.attempt], tx.sessions[x.pair];
    assert tx.attempts == tx.attempts[x.attempt := a] && tx.sessions == tx.sessions[x.pair := w];
    if terminal.Some? {
      var lost := terminal.value.SessionAbsent? || terminal.value.StaleExecutionGeneration?;
      tx := tx.(attempts := tx.attempts[x.attempt := a.(ended := Some(at), disposition := terminal, quarantined := lost || a.quarantined)]);
      if lost { tx := tx.(sessions := WithQuarantine(tx.sessions, x.pair)); }
      if terminal.value.WorkerTerminationUnknown? {
        tx := tx.(sessions := tx.sessions[x.pair := w.(status := SessionTerminated)]);
      }
    } else if x.disposition == Some(RecoveryPending) || LiveDisposition(x, seen).Some? {
      tx := tx.(attempts := tx.attempts[x.attempt := a.(disposition := LiveDisposition(x, seen))]);
    }
  }
}
