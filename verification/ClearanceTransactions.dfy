/** internal/store/clearance_transactions.go: ClearQuarantineWithEvidence (D6). */
module ClearanceTransactions {
  import opened Domain
  import opened Tables
  import opened StopTransactions

  datatype ClearanceBasis = PhysicalClearance | AbsenceClearance | RiskClearance
  /** One lineage of a request; attempt None is the current WorkerSession. */
  datatype Item = Item(ref: LineageRef, basis: ClearanceBasis, stop: Option<Id>)
  datatype Request = Request(pair: Id, restore: Option<Id>, principal: Id, at: Time, session: Item, attempts: seq<Item>)

  /** The quarantined attempts of the Pair: the `expected` map of the source. */
  function ExpectedAttempts(db: DB, pair: Id): set<Id> {
    set a | a in db.attempts && OnPair(db.tasks, db.attempts, a, pair) && db.attempts[a].quarantined
  }

  // --- evidence queries -------------------------------------------------------

  predicate PriorClearance(log: seq<Event>, stop: Id, pair: Id, ref: LineageRef) {
    exists e | e in log :: e.LineageClearedEvent? && e.pair == pair && e.ref == ref && e.stop == stop && e.key.TerminalGeneration?
  }

  predicate AcceptedBy(e: Event, stop: Id, pair: Id, principal: Id, ref: LineageRef, riskClass: RiskClass, restore: Option<Id>) {
    e.RiskAcceptedEvent? && e.pair == pair && e.actor == principal && e.stop == stop && e.ref == ref
    && e.riskClass == riskClass && e.restore == restore
  }

  predicate OnlyAcceptance(log: seq<Event>, i: int, stop: Id, pair: Id, principal: Id, ref: LineageRef, riskClass: RiskClass, restore: Option<Id>) {
    && 0 <= i < |log| && AcceptedBy(log[i], stop, pair, principal, ref, riskClass, restore)
    && forall j | 0 <= j < |log| :: AcceptedBy(log[j], stop, pair, principal, ref, riskClass, restore) ==> j == i
  }

  /** acceptedLineageTx: exactly one acceptance, SELECT count(*) = 1. */
  predicate AcceptedLineage(log: seq<Event>, stop: Id, pair: Id, principal: Id, ref: LineageRef, riskClass: RiskClass, restore: Option<Id>) {
    exists i | 0 <= i < |log| :: OnlyAcceptance(log, i, stop, pair, principal, ref, riskClass, restore)
  }

  predicate Reconciled(db: DB, rq: Request, stop: Id, ref: LineageRef, riskClass: RiskClass, restore: Option<Id>) {
    || PriorClearance(db.log, stop, rq.pair, ref)
    || AcceptedLineage(db.log, stop, rq.pair, rq.principal, ref, riskClass, restore)
  }

  /** A stop row names this lineage of the Pair. */
  predicate NamesLineage(o: Stop, ref: LineageRef) {
    && o.target.session == ref.session && o.target.gen == ref.gen
    && (ref.attempt.Some? ==> StopAttempt(o.target) == ref.attempt)
  }

  function AttemptRef(db: DB, a: Id): LineageRef
    requires a in db.attempts
  {
    LineageRef(Some(a), db.attempts[a].lineage.session, db.attempts[a].lineage.gen)
  }

  // --- guardPairStopsForClearance -----------------------------------------------

  function ResolutionClass(r: Resolution): RiskClass { if r.TargetAbsent? then ClassB else ClassC }

  /** One stop of the Pair is no obstacle: it is settled, and every risk it left on a lineage
      that this request clears has been reconciled. */
  predicate StopReconciled(db: DB, rq: Request, op: Id)
    requires op in db.stops
  {
    var o := db.stops[op];
    && SettledResolution(o.resolution)
    && (!o.resolution.TerminationConfirmed? ==>
          && (NamesLineage(o, rq.session.ref) ==> Reconciled(db, rq, op, rq.session.ref, ResolutionClass(o.resolution), o.target.restore))
          && (o.target.lineage.Some? && o.target.lineage.value.attempt in ExpectedAttempts(db, rq.pair)
              && NamesLineage(o, AttemptRef(db, o.target.lineage.value.attempt))
              ==> Reconciled(db, rq, op, AttemptRef(db, o.target.lineage.value.attempt), ResolutionClass(o.resolution), o.target.restore)))
  }

  /** i is the position of the newest stop of the Pair that names the lineage. */
  predicate LatestStop(db: DB, pair: Id, ref: LineageRef, i: int) {
    && 0 <= i < |db.stopOrder|
    && Names(db, pair, ref, db.stopOrder[i])
    && forall j | i < j < |db.stopOrder| :: !Names(db, pair, ref, db.stopOrder[j])
  }

  predicate Names(db: DB, pair: Id, ref: LineageRef, op: Id) {
    op in db.stops && db.stops[op].target.pair == pair && NamesLineage(db.stops[op], ref)
  }

  /** The evidence of an item may not predate the newest stop of its lineage. */
  predicate EvidenceCurrent(db: DB, pair: Id, item: Item) {
    forall i | 0 <= i < |db.stopOrder| && LatestStop(db, pair, item.ref, i) :: item.stop == Some(db.stopOrder[i])
  }

  predicate PairStopsReconciled(db: DB, rq: Request) {
    && (forall i | 0 <= i < |db.stopOrder| ::
          var op := db.stopOrder[i];
          op in db.stops && db.stops[op].target.pair == rq.pair ==> StopReconciled(db, rq, op))
    && EvidenceCurrent(db, rq.pair, rq.session)
    && forall i | 0 <= i < |rq.attempts| :: EvidenceCurrent(db, rq.pair, rq.attempts[i])
  }

  // --- verifyClearanceBasis -------------------------------------------------------

  predicate BasisVerified(db: DB, rq: Request, item: Item) {
    && item.stop.Some?
    && item.stop.value in db.stops
    && var op := item.stop.value;
    && var o := db.stops[op];
    && o.target.pair == rq.pair
    && match item.basis
       case PhysicalClearance =>
         && o.target.session == item.ref.session && o.target.gen == item.ref.gen
         && (item.ref.attempt.Some? ==> StopAttempt(o.target) == item.ref.attempt)
         && PositiveEvidence(db, rq.pair, item.ref.session, item.ref.gen, None, item.ref.attempt, Some(op))
       case AbsenceClearance =>
         && NamesLineage(o, item.ref)
         && o.stage.StopTargetAbsent? && o.resolution.TargetAbsent?
         && AcceptedLineage(db.log, op, rq.pair, rq.principal, item.ref, ClassB, o.target.restore)
       case RiskClearance =>
         && o.resolution.RiskAccepted?
         && AcceptedLineage(db.log, op, rq.pair, rq.principal, item.ref, ClassC, o.target.restore)
  }

  // --- ClearQuarantineWithEvidence ----------------------------------------------------

  /** The `seen` loop: distinct items, each naming an expected lineage exactly and proved. */
  predicate ItemsAdmit(db: DB, rq: Request) {
    && (forall i | 0 <= i < |rq.attempts| ::
          var item := rq.attempts[i];
          && item.ref.attempt.Some?
          && item.ref.attempt.value in ExpectedAttempts(db, rq.pair)
          && item.ref == AttemptRef(db, item.ref.attempt.value)
          && BasisVerified(db, rq, item)
          && db.attempts[item.ref.attempt.value].ended.Some?
          && AuditLineage(db, rq.pair, db.attempts[item.ref.attempt.value].lineage.task,
               db.attempts[item.ref.attempt.value].lineage.contract, item.ref.attempt.value))
    && forall i, j | 0 <= i < j < |rq.attempts| :: rq.attempts[i].ref.attempt != rq.attempts[j].ref.attempt
  }

  predicate ClearAdmits(db: DB, rq: Request) {
    && rq.session.ref.attempt.None?
    && !UnresolvedRestore(db.restores, rq.pair)
    && (rq.restore.Some? ==>
          && rq.restore.value in db.restores
          && db.restores[rq.restore.value].tuple.pair == rq.pair
          && db.restores[rq.restore.value].resolution.RestoreResolved?)
    && SessionIs(db.sessions, rq.pair, rq.session.ref.session, rq.session.ref.gen)
    && db.sessions[rq.pair].quarantined
    && |ExpectedAttempts(db, rq.pair)| == |rq.attempts|
    && PairStopsReconciled(db, rq)
    && ItemsAdmit(db, rq)
    && BasisVerified(db, rq, rq.session)
  }

  /** The attempts a request names. */
  function Named(items: seq<Item>): set<Id> {
    set i | 0 <= i < |items| && items[i].ref.attempt.Some? :: items[i].ref.attempt.value
  }

  function ClearRows(attempts: map<Id, Attempt>, named: set<Id>): map<Id, Attempt> {
    map a | a in attempts :: if a in named then attempts[a].(quarantined := false) else attempts[a]
  }

  function ClearedEvent(rq: Request, item: Item): Event {
    LineageClearedEvent(rq.pair, item.ref, if item.stop.Some? then item.stop.value else 0, item.basis.PhysicalClearance?, TerminalGeneration)
  }

  function ClearedEvents(rq: Request, items: seq<Item>): seq<Event> {
    seq(|items|, i requires 0 <= i < |items| => ClearedEvent(rq, items[i]))
  }

  function ClearCommit(db: DB, rq: Request): DB
    requires rq.pair in db.sessions
  {
    db.(attempts := ClearRows(db.attempts, Named(rq.attempts)),
        sessions := db.sessions[rq.pair := db.sessions[rq.pair].(quarantined := false)],
        log := db.log + ClearedEvents(rq, rq.attempts) + [ClearedEvent(rq, rq.session)])
  }
}
