/** internal/store/provisioning_transactions.go, with FailProvisioningAtStartup of
    recovery_transactions.go and the status CAS of session_lifecycle.go. */
module ProvisioningTransactions {
  import opened Domain
  import opened Tables

  // --- ReservePairProvisioning ------------------------------------------------

  predicate ReserveProvisionAdmits(db: DB, op: Id, pair: Id) {
    && pair !in db.sessions
    && !UnresolvedRestore(db.restores, pair)
    && !UnresolvedProvision(db.provisions, pair)
    && !PendingStopOn(db.stops, pair)
    && !OpenAttemptOn(db, pair)
    && (forall t | t in db.tasks && db.tasks[t].pair == pair ::
          && (db.tasks[t].current > 0 ==> CurrentExists(db, t))
          && (db.tasks[t].state in {Dispatched, Running, Blocked, Reviewing} ==> db.tasks[t].current > 0 && CurrentExists(db, t)))
    && !QuarantinedAttemptOn(db, pair)
    && op !in db.provisions
  }

  predicate CurrentExists(db: DB, t: Id) {
    exists a | a in db.attempts :: IsCurrent(db.tasks, db.attempts, a) && db.attempts[a].lineage.task == t
  }

  function ReserveProvisionCommit(db: DB, op: Id, pair: Id): DB {
    db.(provisions := db.provisions[op := Provision(pair, ProvisionRequested, None)],
        log := db.log + [Note(ProvisionRequestedNote, op)])
  }

  // --- ConfirmPairProvisioning ------------------------------------------------

  predicate ConfirmProvisionAdmits(db: DB, op: Id, pair: Id, s: Session) {
    && op in db.provisions
    && db.provisions[op].stage.ProvisionRequested?
    && db.provisions[op].pair == pair
    && pair !in db.sessions
    && forall p | p in db.sessions :: db.sessions[p].session != s.session
  }

  function ConfirmProvisionCommit(db: DB, op: Id, pair: Id, s: Session): DB
    requires op in db.provisions
  {
    db.(provisions := db.provisions[op := db.provisions[op].(stage := ProvisionConfirmed, session := Some(s.session))],
        sessions := db.sessions[pair := s],
        log := db.log + [Note(ProvisionedNote, op)])
  }

  // --- FailPairProvisioning / FailProvisioningAtStartup -------------------------

  predicate FailProvisionAdmits(db: DB, op: Id) {
    op in db.provisions && db.provisions[op].stage.ProvisionRequested?
  }

  function FailProvisionCommit(db: DB, op: Id): DB
    requires op in db.provisions
  {
    db.(provisions := db.provisions[op := db.provisions[op].(stage := ProvisionFailed)],
        log := db.log + [Note(ProvisionFailedNote, op)])
  }

  // --- UpdateWorkerSessionStatusAndQuarantine -----------------------------------

  predicate UpdateStatusAdmits(db: DB, pair: Id, expected: SessionStatus, quarantined: bool) {
    && !UnresolvedRestore(db.restores, pair)
    && !UnresolvedProvision(db.provisions, pair)
    && pair in db.sessions
    && db.sessions[pair].status == expected
    && db.sessions[pair].quarantined == quarantined
  }

  function UpdateStatusCommit(db: DB, pair: Id, status: SessionStatus): DB
    requires pair in db.sessions
  {
    db.(sessions := db.sessions[pair := db.sessions[pair].(status := status)])
  }
}
