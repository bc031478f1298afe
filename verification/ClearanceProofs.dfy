/** ClearQuarantineWithEvidence keeps the invariants: its request covers the whole Pair. */
module ClearanceProofs {
  import opened Domain
  import opened Tables
  import opened ClearanceTransactions
  import opened Invariants
  import opened Shapes

  predicate ClearStep(db: DB, e: DB, rq: Request) {
    ClearAdmits(db, rq) && e == ClearCommit(db, rq)
  }

  // --- distinct items and equal cardinality cover every expected attempt ------------------

  lemma {:induction false} NamedCounts(items: seq<Item>)
    requires forall i | 0 <= i < |items| :: items[i].ref.attempt.Some?
    requires forall i, j | 0 <= i < j < |items| :: items[i].ref.attempt != items[j].ref.attempt
    ensures |Named(items)| == |items|
  {
    if items == [] {
      assert Named(items) == {};
    } else {
      var last := |items| - 1;
      var rest := items[..last];
      NamedCounts(rest);
      assert Named(items) == Named(rest) + {items[last].ref.attempt.value} by {
        forall a | a in Named(rest) ensures a in Named(items) {
          var i :| 0 <= i < |rest| && rest[i].ref.attempt == Some(a);
          assert items[i].ref.attempt == Some(a);
        }
        assert forall i | 0 <= i < last :: rest[i] == items[i];
      }
    }
  }

  lemma SubsetOfEqualSize<T>(s: set<T>, t: set<T>)
    requires s <= t && |s| == |t|
    ensures s == t
  {
    assert t == s + (t - s);
    assert |t - s| == 0;
  }

  /** The request names exactly the quarantined attempts of the Pair. */
  lemma NamedIsExpected(db: DB, rq: Request)
    requires ItemsAdmit(db, rq) && |ExpectedAttempts(db, rq.pair)| == |rq.attempts|
    ensures Named(rq.attempts) == ExpectedAttempts(db, rq.pair)
  {
    NamedCounts(rq.attempts);
    SubsetOfEqualSize(Named(rq.attempts), ExpectedAttempts(db, rq.pair));
  }

  // --- the invariant ------------------------------------------------------------------------

  lemma ClearedRow(db: DB, e: DB, rq: Request, a: Id)
    requires ClearStep(db, e, rq) && a in db.attempts
    ensures a in e.attempts && e.attempts[a].lineage == db.attempts[a].lineage && e.attempts[a].ended == db.attempts[a].ended
    ensures e.attempts[a].quarantined == (db.attempts[a].quarantined && !OnPair(db.tasks, db.attempts, a, rq.pair))
  {
    NamedIsExpected(db, rq);
  }

  predicate SameLineages(db: DB, e: DB) {
    && e.attempts.Keys == db.attempts.Keys
    && forall a | a in db.attempts :: e.attempts[a].lineage == db.attempts[a].lineage && e.attempts[a].ended == db.attempts[a].ended
  }

  /** A clearance touches one session row, the named attempts and the log. */
  lemma ClearFrame(db: DB, e: DB, rq: Request)
    requires ClearStep(db, e, rq)
    ensures SameLineages(db, e) && db.log <= e.log
    ensures e == db.(sessions := e.sessions, attempts := e.attempts, log := e.log)
    ensures e.sessions == db.sessions[rq.pair := db.sessions[rq.pair].(quarantined := false)]
  {
    assert db.log <= db.log + (ClearedEvents(rq, rq.attempts) + [ClearedEvent(rq, rq.session)]) == e.log;
  }

  lemma ClearNumbers(db: DB, e: DB)
    requires SameLineages(db, e) && e.tasks == db.tasks
    requires NumbersComplete(db.tasks, db.attempts) && NumbersUnique(db.attempts)
    ensures NumbersComplete(e.tasks, e.attempts) && NumbersUnique(e.attempts)
  {
    forall k, n: nat | k in e.tasks && 1 <= n <= e.tasks[k].current ensures Numbered(e.attempts, k, n) {
      assert Numbered(db.attempts, k, n);
      var x :| HasNumber(db.attempts, x, k, n);
      assert HasNumber(e.attempts, x, k, n);
    }
  }

  lemma ClearRefs(db: DB, e: DB)
    requires SameLineages(db, e) && e.tasks == db.tasks && e.contracts == db.contracts
    requires AttemptRefs(db.tasks, db.contracts, db.attempts) && CurrentIsOpen(db.tasks, db.attempts)
    ensures AttemptRefs(e.tasks, e.contracts, e.attempts) && CurrentIsOpen(e.tasks, e.attempts)
  {
    forall k | k in e.attempts && IsCurrent(e.tasks, e.attempts, k) ensures IsCurrent(db.tasks, db.attempts, k) {}
  }

  lemma ClearRevisions(db: DB, e: DB)
    requires SameLineages(db, e) && e.contracts == db.contracts && RevisionsMonotone(db.contracts, db.attempts)
    ensures RevisionsMonotone(e.contracts, e.attempts)
  {
  }

  lemma ClearLineage(db: DB, e: DB, rq: Request)
    requires ClearStep(db, e, rq) && LineageInv(db)
    ensures LineageInv(e)
  {
    ClearFrame(db, e, rq);
    ClearNumbers(db, e);
    ClearRefs(db, e);
    ClearRevisions(db, e);
  }

  lemma ClearSessions(db: DB, e: DB, rq: Request)
    requires ClearStep(db, e, rq) && SessionInv(db.tasks, db.attempts, db.sessions)
    ensures SessionInv(e.tasks, e.attempts, e.sessions)
  {
    ClearFrame(db, e, rq);
    forall a | a in db.attempts
      ensures e.attempts[a].quarantined ==> db.attempts[a].quarantined && !OnPair(db.tasks, db.attempts, a, rq.pair)
    {
      ClearedRow(db, e, rq, a);
    }
  }

  lemma ClearRestores(db: DB, e: DB, rq: Request)
    requires ClearStep(db, e, rq) && RestoreInv(db.restores, db.sessions)
    ensures RestoreInv(e.restores, e.sessions)
  {
    ClearFrame(db, e, rq);
    forall r | r in db.restores && !db.restores[r].resolution.RestoreResolved? ensures db.restores[r].tuple.pair != rq.pair {
      assert Unresolved(db.restores, r, db.restores[r].tuple.pair);
    }
  }

  lemma ClearExcludesOpen(db: DB, e: DB, rq: Request)
    requires ClearStep(db, e, rq) && RestoreExcludesOpen(db.tasks, db.attempts, db.restores)
    ensures RestoreExcludesOpen(e.tasks, e.attempts, e.restores)
  {
    ClearFrame(db, e, rq);
    forall a, p | OnPair(e.tasks, e.attempts, a, p) ensures OnPair(db.tasks, db.attempts, a, p) {}
  }

  lemma ClearDispatches(db: DB, e: DB, rq: Request)
    requires ClearStep(db, e, rq) && DispatchInv(db)
    ensures DispatchInv(e)
  {
    ClearFrame(db, e, rq);
    StagesComplete(db.attempts, e.attempts, db.dispatches, e.dispatches);
  }

  lemma ClearStops(db: DB, e: DB, rq: Request)
    requires ClearStep(db, e, rq) && StopInv(db)
    ensures StopInv(e)
  {
    ClearFrame(db, e, rq);
    forall o | o in db.stops ensures StopRefs(e.tasks, e.attempts, e.sessions, db.stops[o].target) {
      assert StopRefs(db.tasks, db.attempts, db.sessions, db.stops[o].target);
    }
    SameStopsKept(db, e);
  }

  lemma ClearProvisions(db: DB, e: DB, rq: Request)
    requires ClearStep(db, e, rq) && ProvisionInv(db.provisions, db.sessions)
    ensures ProvisionInv(e.provisions, e.sessions)
  {
    ClearFrame(db, e, rq);
  }

  lemma ClearKeeps(db: DB, e: DB, rq: Request)
    requires Inv(db) && ClearStep(db, e, rq)
    ensures Inv(e)
  {
    ClearLineage(db, e, rq);
    ClearSessions(db, e, rq);
    ClearRestores(db, e, rq);
    ClearExcludesOpen(db, e, rq);
    ClearDispatches(db, e, rq);
    ClearStops(db, e, rq);
    ClearProvisions(db, e, rq);
  }

  /** A cleared attempt was closed, so it is not the target of an in-flight live stop. */
  lemma ClearSaga(db: DB, e: DB, rq: Request)
    requires ClearStep(db, e, rq) && SagaCore(db)
    ensures SagaCore(e)
  {
    ClearFrame(db, e, rq);
    forall d | d in e.dispatches && IsCurrent(e.tasks, e.attempts, e.dispatches[d].bound.attempt)
      ensures IsCurrent(db.tasks, db.attempts, db.dispatches[d].bound.attempt)
    {}
    forall o | o in e.stops && e.stops[o].target.purpose.RunningAttemptStop? && e.stops[o].resolution.InFlight?
      ensures LiveStopHolds(e.tasks, e.attempts, e.stops[o].target)
    {
      assert LiveStopHolds(db.tasks, db.attempts, db.stops[o].target);
      NotCleared(db, e, rq, db.stops[o].target.lineage.value.attempt);
    }
  }

  lemma NotCleared(db: DB, e: DB, rq: Request, a: Id)
    requires ClearStep(db, e, rq) && a in db.attempts && db.attempts[a].ended.None?
    ensures a in e.attempts && e.attempts[a] == db.attempts[a]
  {
    assert a !in Named(rq.attempts);
  }

  // --- what a committed clearance means ----------------------------------------------------

  predicate PairClean(db: DB, pair: Id) {
    && pair in db.sessions && !db.sessions[pair].quarantined
    && !QuarantinedAttemptOn(db, pair)
    && !UnresolvedRestore(db.restores, pair)
    && forall o | o in db.stops && db.stops[o].target.pair == pair :: SettledResolution(db.stops[o].resolution)
  }

  /** Every stop of the Pair is in the rowid scan, so the scan saw it settled. */
  lemma ClearedStopsSettled(db: DB, e: DB, rq: Request)
    requires ClearStep(db, e, rq) && OrderInv(db.stops, db.stopOrder)
    ensures forall o | o in e.stops && e.stops[o].target.pair == rq.pair :: SettledResolution(e.stops[o].resolution)
  {
    ClearFrame(db, e, rq);
    forall o | o in db.stops && db.stops[o].target.pair == rq.pair ensures SettledResolution(db.stops[o].resolution) {
      var i :| 0 <= i < |db.stopOrder| && db.stopOrder[i] == o;
      assert StopReconciled(db, rq, db.stopOrder[i]);
    }
  }

  /** After the commit nothing on the Pair is quarantined or unresolved and every stop is
      settled, while every other Pair is exactly as it was. */
  lemma ClearMeansClean(db: DB, e: DB, rq: Request)
    requires OrderInv(db.stops, db.stopOrder) && ClearStep(db, e, rq)
    ensures PairClean(e, rq.pair)
    ensures forall p | p in db.sessions && p != rq.pair :: p in e.sessions && e.sessions[p] == db.sessions[p]
    ensures forall a | a in db.attempts && !OnPair(db.tasks, db.attempts, a, rq.pair) :: a in e.attempts && e.attempts[a] == db.attempts[a]
  {
    ClearFrame(db, e, rq);
    ClearedStopsSettled(db, e, rq);
    NamedIsExpected(db, rq);
  }
}
