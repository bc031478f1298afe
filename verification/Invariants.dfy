/** The inductive invariant of the store. No transaction checks it; every transaction keeps it. */
module Invariants {
  import opened Domain
  import opened Tables
  import opened StopTransactions

  /** States in which the current attempt of a task is open. */
  predicate OpenState(s: TaskState) {
    s.Dispatched? || s.Running? || s.ReportReady? || s.EvidenceReady? || s.Reviewing? || s.Blocked?
  }

  /** States entered only after a dispatch and in which no contract may be inserted. */
  predicate FrozenState(s: TaskState) {
    OpenState(s) || s.Approved? || s.Failed? || s.HumanRequired?
  }

  // --- tasks, contracts and attempts ----------------------------------------------

  predicate AttemptRefs(tasks: map<Id, Task>, contracts: map<Id, Contract>, attempts: map<Id, Attempt>) {
    forall a | a in attempts ::
      var l := attempts[a].lineage;
      && l.task in tasks && 1 <= l.number <= tasks[l.task].current
      && l.contract in contracts && contracts[l.contract].task == l.task && contracts[l.contract].frozen
  }

  predicate NumbersUnique(attempts: map<Id, Attempt>) {
    forall a, b | a in attempts && b in attempts ::
      attempts[a].lineage.task == attempts[b].lineage.task && attempts[a].lineage.number == attempts[b].lineage.number ==> a == b
  }

  ghost predicate NumbersComplete(tasks: map<Id, Task>, attempts: map<Id, Attempt>) {
    forall t, n: nat :: t in tasks && 1 <= n <= tasks[t].current ==> Numbered(attempts, t, n)
  }

  ghost predicate Numbered(attempts: map<Id, Attempt>, t: Id, n: nat) {
    exists a :: HasNumber(attempts, a, t, n)
  }

  predicate CurrentIsOpen(tasks: map<Id, Task>, attempts: map<Id, Attempt>) {
    && (forall t | t in tasks :: FrozenState(tasks[t].state) ==> tasks[t].current >= 1)
    && forall a | a in attempts ::
         IsCurrent(tasks, attempts, a) && OpenState(tasks[attempts[a].lineage.task].state) ==> attempts[a].ended.None?
  }

  predicate OneLane(tasks: map<Id, Task>) {
    forall s, t | s in tasks && t in tasks ::
      LaneState(tasks[s].state) && LaneState(tasks[t].state) && tasks[s].pair == tasks[t].pair ==> s == t
  }

  /** Every revision but the first supersedes its frozen predecessor, under one base SHA. */
  predicate ContractRows(tasks: map<Id, Task>, contracts: map<Id, Contract>) {
    forall c | c in contracts ::
      var k := contracts[c];
      && k.task in tasks && k.revision >= 1
      && (if k.revision == 1 then k.supersedes.None?
          else
            && k.supersedes.Some? && k.supersedes.value in contracts
            && var p := contracts[k.supersedes.value];
            && p.task == k.task && p.revision == k.revision - 1 && p.baseSha == k.baseSha && p.frozen)
  }

  predicate RevisionsUnique(contracts: map<Id, Contract>) {
    forall c, k | c in contracts && k in contracts ::
      contracts[c].task == contracts[k].task && contracts[c].revision == contracts[k].revision ==> c == k
  }

  predicate FrozenContracts(tasks: map<Id, Task>, contracts: map<Id, Contract>) {
    forall c | c in contracts :: contracts[c].task in tasks && FrozenState(tasks[contracts[c].task].state) ==> contracts[c].frozen
  }

  predicate ContractLineage(tasks: map<Id, Task>, contracts: map<Id, Contract>) {
    ContractRows(tasks, contracts) && RevisionsUnique(contracts) && FrozenContracts(tasks, contracts)
  }

  predicate RevisionsMonotone(contracts: map<Id, Contract>, attempts: map<Id, Attempt>) {
    forall a, b | a in attempts && b in attempts && attempts[a].lineage.contract in contracts && attempts[b].lineage.contract in contracts ::
      attempts[a].lineage.task == attempts[b].lineage.task && attempts[a].lineage.number <= attempts[b].lineage.number
      ==> contracts[attempts[a].lineage.contract].revision <= contracts[attempts[b].lineage.contract].revision
  }

  ghost predicate LineageInv(db: DB) {
    && AttemptRefs(db.tasks, db.contracts, db.attempts)
    && NumbersUnique(db.attempts)
    && NumbersComplete(db.tasks, db.attempts)
    && CurrentIsOpen(db.tasks, db.attempts)
    && OneLane(db.tasks)
    && ContractLineage(db.tasks, db.contracts)
    && RevisionsMonotone(db.contracts, db.attempts)
  }

  // --- dispatch operations and budgets ------------------------------------------------

  predicate DispatchRefs(tasks: map<Id, Task>, attempts: map<Id, Attempt>, dispatches: map<Id, Dispatch>) {
    && (forall d | d in dispatches ::
          var b := dispatches[d].bound;
          && b.attempt in attempts
          && var l := attempts[b.attempt].lineage;
          && l.task == b.task && l.session == b.session && l.gen == b.gen
          && b.task in tasks && tasks[b.task].pair == b.pair
          && (dispatches[d].unknown ==> dispatches[d].stage.SendRequested? && attempts[b.attempt].ended.Some?))
    && forall d, e | d in dispatches && e in dispatches :: dispatches[d].bound.attempt == dispatches[e].bound.attempt ==> d == e
  }

  ghost predicate DispatchComplete(attempts: map<Id, Attempt>, dispatches: map<Id, Dispatch>) {
    forall a | a in attempts :: exists d :: Dispatches(dispatches, d, a)
  }

  predicate Dispatches(dispatches: map<Id, Dispatch>, d: Id, a: Id) {
    d in dispatches && dispatches[d].bound.attempt == a
  }

  predicate BudgetFor(budgets: map<Id, Budget>, d: Id, row: Dispatch) {
    && row.bound.attempt in budgets
    && var b := budgets[row.bound.attempt];
    && b.op == d && row.confirmedAt == Some(b.origin)
    && b.deadline == b.origin + b.duration && b.duration > 0
  }

  predicate BudgetInv(dispatches: map<Id, Dispatch>, budgets: map<Id, Budget>) {
    && (forall d | d in dispatches ::
          if dispatches[d].stage.SendConfirmed? then BudgetFor(budgets, d, dispatches[d]) else dispatches[d].confirmedAt.None?)
    && forall a | a in budgets ::
         budgets[a].op in dispatches && dispatches[budgets[a].op].bound.attempt == a && dispatches[budgets[a].op].stage.SendConfirmed?
  }

  ghost predicate DispatchInv(db: DB) {
    && DispatchRefs(db.tasks, db.attempts, db.dispatches)
    && DispatchComplete(db.attempts, db.dispatches)
    && BudgetInv(db.dispatches, db.budgets)
  }

  // --- sessions -------------------------------------------------------------------------

  /** Every attempt ran on its Pair's session; an open one on its current generation; a
      quarantined one keeps the session quarantined. */
  predicate SessionInv(tasks: map<Id, Task>, attempts: map<Id, Attempt>, sessions: map<Id, Session>) {
    forall a | a in attempts && attempts[a].lineage.task in tasks ::
      var pair := tasks[attempts[a].lineage.task].pair;
      && pair in sessions
      && sessions[pair].session == attempts[a].lineage.session
      && (attempts[a].ended.None? ==> sessions[pair].gen == attempts[a].lineage.gen)
      && (attempts[a].quarantined ==> sessions[pair].quarantined)
  }

  // --- provisioning -----------------------------------------------------------------------

  ghost predicate ProvisionInv(provisions: map<Id, Provision>, sessions: map<Id, Session>) {
    && (forall p, q | p in provisions && q in provisions :: provisions[p].pair == provisions[q].pair ==> p == q)
    && (forall p | p in provisions ::
          && !provisions[p].stage.ProvisionResolved?
          && (provisions[p].stage.ProvisionConfirmed? <==> provisions[p].pair in sessions))
    && (forall k | k in sessions :: exists p :: Provisions(provisions, p, k))
  }

  predicate Provisions(provisions: map<Id, Provision>, p: Id, pair: Id) {
    p in provisions && provisions[p].pair == pair
  }

  // --- restores -------------------------------------------------------------------------------

  /** The versions each resolution state can carry: version counts the transitions taken. */
  predicate VersionFits(r: Restore) {
    var c := if r.stage.RestoreConfirmed? then 1 else 0;
    match r.resolution
    case RestoreInFlight => r.version == c
    case RestoreOutcomeUnknown => r.version == c + 1
    case RecoveryClaimed => 2 <= r.version <= c + 2
    case CleanupClaimed => 3 <= r.version <= c + 3
    case RestoreResolved => 3 <= r.version <= c + 4
  }

  /** The CHECK constraints of pair_restore_operations. */
  predicate RestoreChecks(r: Restore) {
    && (if r.stage.RestoreConfirmed? then r.http200At.Some? && r.observed.Some? else r.http200At.None? && r.observed.None?)
    && (if r.resolution.RestoreResolved? then r.resolvedAt.Some? && r.basis.Some? else r.resolvedAt.None? && r.basis.None?)
    && (r.basis == Some(Http200Basis) ==> r.stage.RestoreConfirmed?)
    && (r.resolution.RecoveryClaimed? || r.resolution.CleanupClaimed? ==> r.principal.Some? && r.claimedAt.Some?)
  }

  function RuntimeGen(r: Restore): Id { if r.observed.Some? then r.observed.value else r.tuple.expected }

  ghost predicate RestoreInv(restores: map<Id, Restore>, sessions: map<Id, Session>) {
    && (forall r | r in restores ::
          && VersionFits(restores[r]) && RestoreChecks(restores[r])
          && (!restores[r].resolution.RestoreResolved? ==>
                && SessionIs(sessions, restores[r].tuple.pair, restores[r].tuple.session, RuntimeGen(restores[r]))
                && sessions[restores[r].tuple.pair].quarantined))
    && (forall r, q | r in restores && q in restores && restores[r].tuple.authorization == restores[q].tuple.authorization :: r == q)
    && forall r, q, pair | Unresolved(restores, r, pair) && Unresolved(restores, q, pair) :: r == q
  }

  /** An unresolved restore and an open attempt never share a Pair. */
  predicate RestoreExcludesOpen(tasks: map<Id, Task>, attempts: map<Id, Attempt>, restores: map<Id, Restore>) {
    forall r, a | r in restores && a in attempts ::
      !restores[r].resolution.RestoreResolved? && OnPair(tasks, attempts, a, restores[r].tuple.pair) ==> attempts[a].ended.Some?
  }

  // --- stops --------------------------------------------------------------------------------------

  /** The (stage, resolution) pairs a stop row can show, with the timestamps each carries. */
  predicate StopRow(o: Stop) {
    && (o.callAt.Some? <==> o.deadline.Some?)
    && (o.callAt.Some? ==> o.callAt.value < o.deadline.value)
    && (o.confirmedAt.Some? <==> o.stage.StopTerminationConfirmed?)
    && (o.resolution.InFlight? <==> o.resolvedAt.None?)
    && match o.stage
       case StopRequested =>
         o.callAt.None? && o.resolution in {InFlight, GenerationMismatch, EffectUnproven, CallOutcomeUnknown, ReissueRequiresHuman, RiskAccepted}
       case StopCallSucceeded =>
         o.callAt.Some? && o.resolution in {InFlight, GenerationMismatch, ConfirmationTimeout, RiskAccepted}
       case StopCallFailed => o.callAt.None? && o.resolution in {CallFailed, RiskAccepted}
       case StopTerminationConfirmed =>
         && o.callAt.Some? && o.confirmedAt.Some? && o.resolution.TerminationConfirmed?
         && o.callAt.value <= o.confirmedAt.value < o.deadline.value
       case StopTargetAbsent => o.resolution.TargetAbsent?
  }

  predicate StopRefs(tasks: map<Id, Task>, attempts: map<Id, Attempt>, sessions: map<Id, Session>, t: StopTarget) {
    && t.pair in sessions && sessions[t.pair].session == t.session
    && (t.purpose.PairMaintenance? <==> t.lineage.None?)
    && (t.lineage.Some? ==>
          && var l := t.lineage.value;
          && OnPair(tasks, attempts, l.attempt, t.pair)
          && attempts[l.attempt].lineage.task == l.task && attempts[l.attempt].lineage.contract == l.contract
          && attempts[l.attempt].lineage.session == t.session && attempts[l.attempt].lineage.gen == t.gen)
    && (t.purpose.RunningAttemptStop? ==> t.restore.None?)
  }

  predicate StopRows(tasks: map<Id, Task>, attempts: map<Id, Attempt>, sessions: map<Id, Session>, stops: map<Id, Stop>) {
    forall o | o in stops :: StopRow(stops[o]) && StopRefs(tasks, attempts, sessions, stops[o].target)
  }

  /** At most one pending stop on a Pair, one live stop per attempt, one stop per restore. */
  ghost predicate StopsUnique(stops: map<Id, Stop>) {
    && (forall o, k, pair | PendingStop(stops, o, pair) && PendingStop(stops, k, pair) :: o == k)
    && (forall o, k, a | LiveStop(stops, o, a) && LiveStop(stops, k, a) :: o == k)
    && forall o, k, r | LinkedStop(stops, o, r) && LinkedStop(stops, k, r) :: o == k
  }

  predicate PendingStop(stops: map<Id, Stop>, o: Id, pair: Id) {
    o in stops && stops[o].target.pair == pair && PendingResolution(stops[o].resolution)
  }

  predicate LiveStop(stops: map<Id, Stop>, o: Id, attempt: Id) {
    o in stops && stops[o].target.purpose.RunningAttemptStop? && StopAttempt(stops[o].target) == Some(attempt)
  }

  predicate LinkedStop(stops: map<Id, Stop>, o: Id, restore: Id) {
    o in stops && stops[o].target.restore == Some(restore)
  }

  /** A pending stop passes guardStopRestoreOwner; a resolved restore has a settled stop. */
  predicate StopOwners(stops: map<Id, Stop>, restores: map<Id, Restore>) {
    forall o | o in stops ::
      && (PendingResolution(stops[o].resolution) ==> OwnerAdmits(restores, stops[o].target))
      && (stops[o].target.restore.Some? ==>
            && var r := stops[o].target.restore.value;
            && r in restores && restores[r].tuple.pair == stops[o].target.pair
            && (restores[r].resolution.CleanupClaimed? || (restores[r].resolution.RestoreResolved? && SettledResolution(stops[o].resolution))))
  }

  predicate OrderInv(stops: map<Id, Stop>, order: seq<Id>) {
    && (forall i | 0 <= i < |order| :: order[i] in stops)
    && (forall o | o in stops :: o in order)
    && forall i, j | 0 <= i < j < |order| :: order[i] != order[j]
  }

  predicate EvidenceLogged(stops: map<Id, Stop>, log: seq<Event>) {
    forall o | o in stops && ConfirmedRow(stops[o]) :: ConfirmationRecorded(log, o, stops[o])
  }

  ghost predicate StopInv(db: DB) {
    && StopRows(db.tasks, db.attempts, db.sessions, db.stops)
    && StopsUnique(db.stops)
    && StopOwners(db.stops, db.restores)
    && OrderInv(db.stops, db.stopOrder)
    && EvidenceLogged(db.stops, db.log)
  }

  // --- everything -----------------------------------------------------------------------------------

  ghost predicate Inv(db: DB) {
    && LineageInv(db)
    && DispatchInv(db)
    && SessionInv(db.tasks, db.attempts, db.sessions)
    && ProvisionInv(db.provisions, db.sessions)
    && RestoreInv(db.restores, db.sessions)
    && RestoreExcludesOpen(db.tasks, db.attempts, db.restores)
    && StopInv(db)
  }

  // --- saga steps only ------------------------------------------------------------------------------

  predicate ConfirmedState(s: TaskState) { OpenState(s) && !s.Dispatched? }

  /** A task past DISPATCHED has a confirmed send on its current attempt. */
  predicate SendsConfirmed(tasks: map<Id, Task>, attempts: map<Id, Attempt>, dispatches: map<Id, Dispatch>) {
    forall d | d in dispatches ::
      IsCurrent(tasks, attempts, dispatches[d].bound.attempt) && ConfirmedState(tasks[attempts[dispatches[d].bound.attempt].lineage.task].state)
      ==> dispatches[d].stage.SendConfirmed?
  }

  /** An in-flight live stop still owns a RUNNING task and a quarantined open attempt. */
  predicate LiveStopHolds(tasks: map<Id, Task>, attempts: map<Id, Attempt>, t: StopTarget) {
    && t.lineage.Some?
    && IsCurrent(tasks, attempts, t.lineage.value.attempt)
    && attempts[t.lineage.value.attempt].lineage.task == t.lineage.value.task
    && attempts[t.lineage.value.attempt].ended.None? && attempts[t.lineage.value.attempt].quarantined
    && tasks[t.lineage.value.task].state.Running?
  }

  predicate LiveStopsHold(tasks: map<Id, Task>, attempts: map<Id, Attempt>, stops: map<Id, Stop>) {
    forall o | o in stops :: stops[o].target.purpose.RunningAttemptStop? && stops[o].resolution.InFlight? ==> LiveStopHolds(tasks, attempts, stops[o].target)
  }

  predicate SagaCore(db: DB) {
    && SendsConfirmed(db.tasks, db.attempts, db.dispatches)
    && LiveStopsHold(db.tasks, db.attempts, db.stops)
  }

  ghost predicate SagaInv(db: DB) { Inv(db) && SagaCore(db) }
}
