/** Quarantine clearance as the store runs it (internal/store/clearance_transactions.go). */
module ClearanceStore {
  import opened Domain
  import opened Tables
  import opened ClearanceTransactions

  /** The newest stop among the first n rows of the table that names the lineage, if any. */
  predicate NewestBefore(db: DB, pair: Id, ref: LineageRef, n: nat, newest: Option<Id>)
    requires n <= |db.stopOrder|
  {
    if newest.None? then forall j | 0 <= j < n :: !Names(db, pair, ref, db.stopOrder[j])
    else exists i | 0 <= i < n ::
      && db.stopOrder[i] == newest.value && Names(db, pair, ref, newest.value)
      && forall j | i < j < n :: !Names(db, pair, ref, db.stopOrder[j])
  }

  lemma NewestIsLatest(db: DB, pair: Id, item: Item, newest: Option<Id>)
    requires NewestBefore(db, pair, item.ref, |db.stopOrder|, newest)
    ensures EvidenceCurrent(db, pair, item) <==> (newest.None? || item.stop == newest)
  {
    if newest.Some? {
      var i :| 0 <= i < |db.stopOrder| && db.stopOrder[i] == newest.value && Names(db, pair, item.ref, newest.value)
               && forall j | i < j < |db.stopOrder| :: !Names(db, pair, item.ref, db.stopOrder[j]);
      assert LatestStop(db, pair, item.ref, i);
      forall k | 0 <= k < |db.stopOrder| && LatestStop(db, pair, item.ref, k) ensures k == i {}
    }
  }

  lemma NoneYet(db: DB, pair: Id, ref: LineageRef)
    ensures NewestBefore(db, pair, ref, 0, None)
  {}

  /** One step of the newest-row bookkeeping. */
  lemma NewestStep(db: DB, pair: Id, ref: LineageRef, n: nat, newest: Option<Id>)
    requires n < |db.stopOrder| && NewestBefore(db, pair, ref, n, newest)
    ensures NewestBefore(db, pair, ref, n + 1, if Names(db, pair, ref, db.stopOrder[n]) then Some(db.stopOrder[n]) else newest)
  {}

  /** The evidence offered for an expected attempt may not predate the newest stop of its row. */
  predicate AttemptEvidenceCurrent(db: DB, rq: Request, item: Item) {
    item.ref.attempt.Some? && item.ref.attempt.value in ExpectedAttempts(db, rq.pair) ==>
      EvidenceCurrent(db, rq.pair, item.(ref := AttemptRef(db, item.ref.attempt.value)))
  }

  /** Every stop of the Pair is settled and reconciled, and no evidence is stale. */
  predicate GuardPasses(db: DB, rq: Request) {
    && (forall i | 0 <= i < |db.stopOrder| ::
          var op := db.stopOrder[i];
          op in db.stops && db.stops[op].target.pair == rq.pair ==> StopReconciled(db, rq, op))
    && EvidenceCurrent(db, rq.pair, rq.session)
    && forall i | 0 <= i < |rq.attempts| :: AttemptEvidenceCurrent(db, rq, rq.attempts[i])
  }

  /** For items that name expected attempts exactly this is the guard of a clearance. */
  lemma GuardIsReconciled(db: DB, rq: Request)
    requires ItemsNamed(db, rq)
    ensures GuardPasses(db, rq) <==> PairStopsReconciled(db, rq)
  {
    hide StopReconciled, EvidenceCurrent;
    forall i | 0 <= i < |rq.attempts|
      ensures AttemptEvidenceCurrent(db, rq, rq.attempts[i]) <==> EvidenceCurrent(db, rq.pair, rq.attempts[i])
    {
      var item := rq.attempts[i];
      assert item.(ref := AttemptRef(db, item.ref.attempt.value)) == item;
    }
  }

  /** guardPairStopsForClearance: one pass over every stop of the Pair in rowid order. */
  method GuardPairStops(db: DB, rq: Request) returns (err: Error)
    requires forall i | 0 <= i < |db.stopOrder| :: db.stopOrder[i] in db.stops
    ensures err.Nil? <==> GuardPasses(db, rq)
  {
    hide NewestBefore, StopReconciled, EvidenceCurrent;
    var latestSession: Option<Id> := None;
    var latestAttempt: map<Id, Id> := map[];
    var attempts := ExpectedAttempts(db, rq.pair);
    NoneYet(db, rq.pair, rq.session.ref);
    forall a | a in attempts ensures NewestBefore(db, rq.pair, AttemptRef(db, a), 0, None) { NoneYet(db, rq.pair, AttemptRef(db, a)); }
    for n := 0 to |db.stopOrder|
      invariant NewestBefore(db, rq.pair, rq.session.ref, n, latestSession)
      invariant forall a | a in attempts ::
        NewestBefore(db, rq.pair, AttemptRef(db, a), n, if a in latestAttempt then Some(latestAttempt[a]) else None)
      invariant latestAttempt.Keys <= attempts
      invariant forall i | 0 <= i < n && db.stops[db.stopOrder[i]].target.pair == rq.pair :: StopReconciled(db, rq, db.stopOrder[i])
    {
      var op := db.stopOrder[n];
      NewestStep(db, rq.pair, rq.session.ref, n, latestSession);
      forall a | a in attempts
        ensures NewestBefore(db, rq.pair, AttemptRef(db, a), n + 1,
          if Names(db, rq.pair, AttemptRef(db, a), op) then Some(op) else if a in latestAttempt then Some(latestAttempt[a]) else None)
      {
        NewestStep(db, rq.pair, AttemptRef(db, a), n, if a in latestAttempt then Some(latestAttempt[a]) else None);
      }
      if db.stops[op].target.pair == rq.pair {
        var o := db.stops[op];
        if NamesLineage(o, rq.session.ref) { latestSession := Some(op); }
        if o.target.lineage.Some? {
          var a := o.target.lineage.value.attempt;
          if a in attempts && NamesLineage(o, AttemptRef(db, a)) { latestAttempt := latestAttempt[a := op]; }
        }
        if !StopReconciled(db, rq, op) { return Quarantined; }
      }
    }
    NewestIsLatest(db, rq.pair, rq.session, latestSession);
    if latestSession.Some? && rq.session.stop != latestSession { return StateConflict; }
    for i := 0 to |rq.attempts|
      invariant forall k | 0 <= k < i :: AttemptEvidenceCurrent(db, rq, rq.attempts[k])
    {
      var item := rq.attempts[i];
      if item.ref.attempt.Some? {
        var a := item.ref.attempt.value;
        if a in attempts {
          NewestIsLatest(db, rq.pair, item.(ref := AttemptRef(db, a)), if a in latestAttempt then Some(latestAttempt[a]) else None);
        }
        if a in latestAttempt && item.stop != Some(latestAttempt[a]) { return LineageMismatch; }
      }
    }
    return Nil;
  }

  /** Every item names the exact lineage of an expected attempt. */
  predicate ItemsNamed(db: DB, rq: Request) {
    && rq.session.ref.attempt.None?
    && forall i | 0 <= i < |rq.attempts| ::
         && rq.attempts[i].ref.attempt.Some?
         && rq.attempts[i].ref.attempt.value in ExpectedAttempts(db, rq.pair)
         && rq.attempts[i].ref == AttemptRef(db, rq.attempts[i].ref.attempt.value)
  }

  /** The `seen` loop and the proof of each item. */
  method CheckItems(db: DB, rq: Request) returns (err: Error)
    ensures err.Nil? <==>
      && (forall i | 0 <= i < |rq.attempts| ::
            && rq.attempts[i].ref.attempt.Some?
            && rq.attempts[i].ref.attempt.value in ExpectedAttempts(db, rq.pair)
            && rq.attempts[i].ref == AttemptRef(db, rq.attempts[i].ref.attempt.value)
            && BasisVerified(db, rq, rq.attempts[i]))
      && forall i, j | 0 <= i < j < |rq.attempts| :: rq.attempts[i].ref.attempt != rq.attempts[j].ref.attempt
  {
    var expected := ExpectedAttempts(db, rq.pair);
    var seen: set<Id> := {};
    for i := 0 to |rq.attempts|
      invariant forall k | 0 <= k < i ::
        && rq.attempts[k].ref.attempt.Some?
        && rq.attempts[k].ref.attempt.value in expected
        && rq.attempts[k].ref == AttemptRef(db, rq.attempts[k].ref.attempt.value)
        && BasisVerified(db, rq, rq.attempts[k])
      invariant forall j, k | 0 <= j < k < i :: rq.attempts[j].ref.attempt != rq.attempts[k].ref.attempt
      invariant seen == Named(rq.attempts[..i])
    {
      var item := rq.attempts[i];
      if item.ref.attempt.None? { return LineageMismatch; }
      var a := item.ref.attempt.value;
      if a in seen { return LineageMismatch; }
      NamedPush(rq.attempts, i);
      seen := seen + {a};
      if a !in expected || item.ref != AttemptRef(db, a) { return LineageMismatch; }
      if !BasisVerified(db, rq, item) { return StateConflict; }
    }
    return Nil;
  }

  lemma NamedPush(items: seq<Item>, i: nat)
    requires i < |items| && items[i].ref.attempt.Some?
    ensures Named(items[..i + 1]) == Named(items[..i]) + {items[i].ref.attempt.value}
  {
    forall a | a in Named(items[..i]) ensures a in Named(items[..i + 1]) {
      var k :| 0 <= k < i && items[..i][k].ref.attempt == Some(a);
      assert items[..i + 1][k].ref.attempt == Some(a);
    }
    assert items[..i + 1][i] == items[i];
    forall a | a in Named(items[..i + 1]) && a != items[i].ref.attempt.value ensures a in Named(items[..i]) {
      var k :| 0 <= k < i + 1 && items[..i + 1][k].ref.attempt == Some(a);
      assert items[..i][k].ref.attempt == Some(a);
    }
  }

  /** The CAS updates, one item at a time. */
  method ClearItems(db: DB, rq: Request) returns (err: Error, tx: DB)
    requires ItemsNamed(db, rq)
    requires forall i, j | 0 <= i < j < |rq.attempts| :: rq.attempts[i].ref.attempt != rq.attempts[j].ref.attempt
    ensures err.Nil? <==> forall i | 0 <= i < |rq.attempts| :: ItemWritable(db, rq, rq.attempts[i].ref.attempt.value)
    ensures err.Nil? ==> tx == db.(attempts := ClearRows(db.attempts, Named(rq.attempts)), log := db.log + ClearedEvents(rq, rq.attempts))
  {
    hide AuditLineage;
    tx := db;
    assert Named(rq.attempts[..0]) == {} && ClearRows(db.attempts, {}) == db.attempts;
    for i := 0 to |rq.attempts|
      invariant tx == db.(attempts := ClearRows(db.attempts, Named(rq.attempts[..i])), log := db.log + ClearedEvents(rq, rq.attempts[..i]))
      invariant forall k | 0 <= k < i :: ItemWritable(db, rq, rq.attempts[k].ref.attempt.value)
    {
      var item := rq.attempts[i];
      var a := item.ref.attempt.value;
      assert a !in Named(rq.attempts[..i]) by {
        forall k | 0 <= k < i ensures rq.attempts[..i][k].ref.attempt != Some(a) { assert rq.attempts[k].ref.attempt != rq.attempts[i].ref.attempt; }
      }
      if !tx.attempts[a].quarantined || tx.attempts[a].ended.None? { return StateConflict, tx; }
      tx := tx.(attempts := tx.attempts[a := tx.attempts[a].(quarantined := false)]);
      if !AuditLineage(db, rq.pair, db.attempts[a].lineage.task, db.attempts[a].lineage.contract, a) { return LineageMismatch, tx; }
      tx := tx.(log := tx.log + [ClearedEvent(rq, item)]);
      NamedPush(rq.attempts, i);
      assert ClearedEvents(rq, rq.attempts[..i + 1]) == ClearedEvents(rq, rq.attempts[..i]) + [ClearedEvent(rq, item)];
    }
    assert rq.attempts[..|rq.attempts|] == rq.attempts;
    return Nil, tx;
  }

  predicate ItemWritable(db: DB, rq: Request, a: Id) {
    && a in db.attempts && db.attempts[a].ended.Some?
    && AuditLineage(db, rq.pair, db.attempts[a].lineage.task, db.attempts[a].lineage.contract, a)
  }

  method ClearQuarantineWithEvidence(s: Store, rq: Request) returns (err: Error)
    requires forall i | 0 <= i < |s.db.stopOrder| :: s.db.stopOrder[i] in s.db.stops
    modifies s
    ensures err.Nil? <==> ClearAdmits(old(s.db), rq)
    ensures s.db == if err.Nil? then ClearCommit(old(s.db), rq) else old(s.db)
  {
    if rq.session.ref.attempt.Some? { return StateConflict; }
    var tx := s.db;
    if UnresolvedRestore(tx.restores, rq.pair) { return Quarantined; }
    if rq.restore.Some? {
      if rq.restore.value !in tx.restores || tx.restores[rq.restore.value].tuple.pair != rq.pair { return NotFound; }
      if !tx.restores[rq.restore.value].resolution.RestoreResolved? { return StateConflict; }
    }
    if !SessionIs(tx.sessions, rq.pair, rq.session.ref.session, rq.session.ref.gen) || !tx.sessions[rq.pair].quarantined {
      return LineageMismatch;
    }
    if |ExpectedAttempts(tx, rq.pair)| != |rq.attempts| { return LineageMismatch; }
    err := GuardPairStops(tx, rq);
    if ItemsNamed(tx, rq) { GuardIsReconciled(tx, rq); }
    assert ItemsAdmit(tx, rq) ==> ItemsNamed(tx, rq);
    if !err.Nil? { return; }
    err := CheckItems(tx, rq);
    if !err.Nil? { return; }
    if !BasisVerified(tx, rq, rq.session) { return StateConflict; }
    err, tx := ClearItems(tx, rq);
    if !err.Nil? { return; }
    tx := tx.(sessions := tx.sessions[rq.pair := tx.sessions[rq.pair].(quarantined := false)]);
    tx := tx.(log := tx.log + [ClearedEvent(rq, rq.session)]);
    s.db := tx;
    return Nil;
  }
}
