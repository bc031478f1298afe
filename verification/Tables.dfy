/** The joins and EXISTS sub-queries that several transactions share. */
module Tables {
  import opened Domain

  // --- attempts and tasks -------------------------------------------------

  predicate OnPair(tasks: map<Id, Task>, attempts: map<Id, Attempt>, a: Id, pair: Id) {
    && a in attempts
    && attempts[a].lineage.task in tasks
    && tasks[attempts[a].lineage.task].pair == pair
  }

  /** a is the row whose number equals its task's current_attempt. */
  predicate IsCurrent(tasks: map<Id, Task>, attempts: map<Id, Attempt>, a: Id) {
    && a in attempts
    && attempts[a].lineage.task in tasks
    && attempts[a].lineage.number == tasks[attempts[a].lineage.task].current
  }

  predicate CurrentOpen(db: DB, task: Id, a: Id) {
    && IsCurrent(db.tasks, db.attempts, a)
    && db.attempts[a].lineage.task == task
    && db.attempts[a].ended.None?
  }

  predicate OpenAttemptOn(db: DB, pair: Id) {
    exists a | a in db.attempts :: OnPair(db.tasks, db.attempts, a, pair) && db.attempts[a].ended.None?
  }

  predicate QuarantinedAttemptOn(db: DB, pair: Id) {
    exists a | a in db.attempts :: OnPair(db.tasks, db.attempts, a, pair) && db.attempts[a].quarantined
  }

  /** The states that occupy the Pair's single active lane. */
  predicate LaneState(s: TaskState) { s.Dispatched? || s.Running? || s.Reviewing? }

  predicate LaneBusy(tasks: map<Id, Task>, pair: Id, except: Id) {
    exists t | t in tasks :: t != except && tasks[t].pair == pair && LaneState(tasks[t].state)
  }

  predicate HasNumber(attempts: map<Id, Attempt>, a: Id, task: Id, n: nat) {
    a in attempts && attempts[a].lineage.task == task && attempts[a].lineage.number == n
  }

  // --- sessions -------------------------------------------------------------

  predicate SessionIs(sessions: map<Id, Session>, pair: Id, session: Id, gen: Id) {
    pair in sessions && sessions[pair].session == session && sessions[pair].gen == gen
  }

  function WithQuarantine(sessions: map<Id, Session>, pair: Id): map<Id, Session>
    requires pair in sessions
  {
    sessions[pair := sessions[pair].(quarantined := true)]
  }

  /** UPDATE task_attempts SET quarantine_state='QUARANTINED' for one runtime of the Pair. */
  function QuarantineRuntime(db: DB, pair: Id, session: Id, gen: Id): (r: map<Id, Attempt>) {
    map a | a in db.attempts ::
      if OnPair(db.tasks, db.attempts, a, pair) && db.attempts[a].lineage.session == session && db.attempts[a].lineage.gen == gen
      then db.attempts[a].(quarantined := true)
      else db.attempts[a]
  }

  // --- operations on a Pair -------------------------------------------------

  predicate Unresolved(restores: map<Id, Restore>, r: Id, pair: Id) {
    r in restores && restores[r].tuple.pair == pair && !restores[r].resolution.RestoreResolved?
  }

  predicate UnresolvedRestore(restores: map<Id, Restore>, pair: Id) {
    exists r | r in restores :: Unresolved(restores, r, pair)
  }

  predicate UnresolvedProvision(provisions: map<Id, Provision>, pair: Id) {
    exists p | p in provisions ::
      provisions[p].pair == pair && (provisions[p].stage.ProvisionRequested? || provisions[p].stage.ProvisionFailed?)
  }

  /** The resolutions that keep a Pair's stop lane occupied. */
  predicate PendingResolution(r: Resolution) {
    r.InFlight? || r.CallOutcomeUnknown? || r.ConfirmationTimeout? || r.ReissueRequiresHuman?
  }

  predicate PendingStopOn(stops: map<Id, Stop>, pair: Id) {
    exists o | o in stops :: stops[o].target.pair == pair && PendingResolution(stops[o].resolution)
  }

  /** The resolutions a linked restore accepts as terminal. */
  predicate SettledResolution(r: Resolution) {
    r.TerminationConfirmed? || r.TargetAbsent? || r.RiskAccepted?
  }

  predicate UnsettledLinkedStop(stops: map<Id, Stop>, restore: Id) {
    exists o | o in stops :: stops[o].target.restore == Some(restore) && !SettledResolution(stops[o].resolution)
  }

  predicate UnknownDeliveryOn(dispatches: map<Id, Dispatch>, pair: Id) {
    exists d | d in dispatches :: dispatches[d].bound.pair == pair && dispatches[d].unknown
  }

  // --- audit ----------------------------------------------------------------

  /** The lineage checks of appendAuditEventTx for an event that names an attempt. */
  predicate AuditLineage(db: DB, pair: Id, task: Id, contract: Id, attempt: Id) {
    && contract in db.contracts && db.contracts[contract].task == task
    && attempt in db.attempts && db.attempts[attempt].lineage.task == task && db.attempts[attempt].lineage.contract == contract
    && task in db.tasks && db.tasks[task].pair == pair
  }
}
