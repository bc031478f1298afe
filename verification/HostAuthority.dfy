/** Host admission scopes and the shutdown drain (internal/host/authority.go, drain.go). */
module HostAuthority {
  import opened Domain

  /** The scope a permit holds: one Pair, or every Pair. */
  datatype Scope = PairScope(pair: Id) | GlobalScope

  class Permit {
    const scope: Scope
    var released: bool

    constructor (scope: Scope)
      ensures this.scope == scope && !released
    {
      this.scope := scope;
      released := false;
    }
  }

  lemma RemovedSize(m: map<Scope, Permit>, s: Scope)
    requires s in m
    ensures |m - {s}| + 1 == |m|
  {
    assert m.Keys == (m - {s}).Keys + {s};
    assert |m.Keys| == |m| && |(m - {s}).Keys| == |m - {s}|;
  }

  lemma EmptyMap(m: map<Id, Id>)
    requires |m| == 0
    ensures m == map[]
  {
    assert m.Keys == {};
  }

  lemma AddedSize(m: map<Scope, Permit>, s: Scope, p: Permit)
    requires s !in m
    ensures |m[s := p]| == |m| + 1
  {
    assert m[s := p].Keys == m.Keys + {s};
  }

  class Authority {
    var pairLocks: map<Id, Id>
    var globalLocked: bool
    var activeOps: nat
    var draining: bool
    /** The callers still inside: the unreleased permit of each held scope. */
    var live: map<Scope, Permit>
    /** Every permit ever handed out. */
    ghost var issued: set<Permit>

    predicate Held(scope: Scope)
      reads this
    {
      match scope case PairScope(p) => p in pairLocks case GlobalScope => globalLocked
    }

    /** A bijection between unreleased permits and held scopes, counted by activeOps, and
        never both kinds of scope. */
    ghost predicate Valid()
      reads this, issued
    {
      && (forall s :: s in live <==> Held(s))
      && |live| == activeOps
      && (forall s | s in live :: live[s] in issued && live[s].scope == s)
      && (forall p | p in issued :: !p.released <==> p.scope in live && live[p.scope] == p)
      && (globalLocked ==> pairLocks == map[])
    }

    constructor ()
      ensures Valid() && !draining && activeOps == 0 && issued == {} && fresh(this)
    {
      pairLocks, globalLocked, activeOps, draining := map[], false, 0, false;
      issued, live := {}, map[];
    }

    /** AcquireExclusiveScope: null is the refusal. */
    method AcquireExclusiveScope(pair: Id, purpose: Id) returns (permit: Permit?)
      requires Valid()
      modifies this
      ensures Valid() && draining == old(draining)
      ensures permit != null <==> !old(draining) && !old(globalLocked) && pair !in old(pairLocks)
      ensures permit != null ==> fresh(permit) && permit.scope == PairScope(pair) && !permit.released
      ensures permit != null ==> issued == old(issued) + {permit} && live == old(live)[PairScope(pair) := permit]
      ensures permit == null ==> issued == old(issued) && live == old(live) && activeOps == old(activeOps)
    {
      if draining || globalLocked || pair in pairLocks { return null; }
      var granted := new Permit(PairScope(pair));
      pairLocks := pairLocks[pair := purpose];
      Count(granted);
      permit := granted;
    }

    method AcquireGlobalExclusiveScope(purpose: Id) returns (permit: Permit?)
      requires Valid()
      modifies this
      ensures Valid() && draining == old(draining)
      ensures permit != null <==> !old(draining) && !old(globalLocked) && old(pairLocks) == map[]
      ensures permit != null ==> fresh(permit) && permit.scope == GlobalScope && !permit.released
      ensures permit != null ==> issued == old(issued) + {permit} && live == old(live)[GlobalScope := permit]
      ensures permit == null ==> issued == old(issued) && live == old(live) && activeOps == old(activeOps)
    {
      if draining || globalLocked { return null; }
      if |pairLocks| > 0 { return null; }
      EmptyMap(pairLocks);
      NothingHeld();
      var granted := new Permit(GlobalScope);
      globalLocked := true;
      Count(granted);
      assert live == map[GlobalScope := granted];
      assert forall s :: Held(s) <==> s == GlobalScope;
      assert forall p | p in old(issued) :: p.released;
      permit := granted;
    }

    lemma NothingHeld()
      requires Valid() && pairLocks == map[] && !globalLocked
      ensures live == map[] && forall p | p in issued :: p.released
    {
      forall s ensures !Held(s) {}
    }

    /** activeOps.Add(1) for a scope that has just been locked. */
    method Count(permit: Permit)
      requires |live| == activeOps && permit.scope !in live && permit !in issued
      modifies this`live, this`issued, this`activeOps
      ensures live == old(live)[permit.scope := permit] && issued == old(issued) + {permit}
      ensures activeOps == old(activeOps) + 1 == |live|
    {
      AddedSize(live, permit.scope, permit);
      live := live[permit.scope := permit];
      issued := issued + {permit};
      activeOps := activeOps + 1;
    }

    /** A second release of the same permit changes nothing, whoever holds its scope by then. */
    method Release(permit: Permit)
      requires Valid() && permit in issued
      modifies this, permit
      ensures Valid() && permit.released && issued == old(issued) && draining == old(draining)
      ensures old(permit.released) ==> live == old(live) && pairLocks == old(pairLocks) && globalLocked == old(globalLocked) && activeOps == old(activeOps)
      ensures !old(permit.released) ==> live == old(live) - {permit.scope} && activeOps + 1 == old(activeOps)
    {
      if permit.released { return; }
      assert permit.scope in live && Held(permit.scope);
      RemovedSize(live, permit.scope);
      permit.released := true;
      match permit.scope {
        case PairScope(p) =>
          assert !globalLocked;
          pairLocks := pairLocks - {p};
        case GlobalScope => globalLocked := false;
      }
      activeOps := activeOps - 1;
      live := live - {permit.scope};
    }

    /** Admission closes and never reopens: no method sets draining to false. */
    method SetUnavailable()
      requires Valid()
      modifies this
      ensures Valid() && draining && issued == old(issued) && live == old(live) && activeOps == old(activeOps)
    {
      draining := true;
    }

    /** Admission closes for good. Each caller inside releases its permit at its own time, and
        the drain waits until all have or the timeout elapses. */
    method Drain(timeout: Time, returnAt: Scope -> Time) returns (drained: bool)
      requires Valid()
      modifies this, issued
      ensures Valid() && draining && issued == old(issued)
      ensures drained <==> forall s | s in old(live) :: returnAt(s) <= timeout
      ensures live == map s | s in old(live) && returnAt(s) > timeout :: old(live)[s]
    {
      draining := true;
      ghost var before := live;
      while exists s | s in live :: returnAt(s) <= timeout
        invariant Valid() && draining && issued == old(issued)
        invariant forall s | s in live :: s in before && live[s] == before[s]
        invariant forall s | s in before && s !in live :: returnAt(s) <= timeout
        decreases |live|
      {
        var scope :| scope in live && returnAt(scope) <= timeout;
        RemovedSize(live, scope);
        Release(live[scope]);
      }
      EmptyIffIdle();
      return activeOps == 0;
    }

    lemma EmptyIffIdle()
      requires Valid()
      ensures live == map[] <==> activeOps == 0
    {}

    /** The fail-closed join: block until every caller has returned. */
    method WaitAllReleased()
      requires Valid() && draining
      modifies this, issued
      ensures Valid() && draining && issued == old(issued) && live == map[] && activeOps == 0
    {
      while activeOps > 0
        invariant Valid() && draining && issued == old(issued)
        decreases activeOps
      {
        EmptyIffIdle();
        var scope :| scope in live;
        Release(live[scope]);
      }
      EmptyIffIdle();
    }
  }

  /** Nobody is inside and nobody can enter: every permit ever issued has been released. */
  lemma IdleMeansReleased(a: Authority, p: Permit)
    requires a.Valid() && a.live == map[] && p in a.issued
    ensures p.released
  {}

  // --- drain.go -------------------------------------------------------------------------

  /** A component to close: absent, or closing with a result. */
  datatype Closer = Absent | Closes(result: Error)

  datatype Teardown = ListenerClosed | Joined | SchedulerClosed | StoreClosed | MetadataCleaned | DatabaseClosed | LockReleased

  /** recordErr keeps the first failure. */
  function Keep(first: Error, e: Error): Error { if first.Nil? then e else first }

  function KeepAll(first: Error, cs: seq<Closer>): Error {
    if cs == [] then first else Keep(KeepAll(first, cs[..|cs| - 1]), Result(cs[|cs| - 1]))
  }

  /** Component i is the first of the list that failed to close. */
  predicate FirstFailure(cs: seq<Closer>, i: int) {
    0 <= i < |cs| && !Result(cs[i]).Nil? && forall j | 0 <= j < i :: Result(cs[j]).Nil?
  }

  /** The error kept over a list is the first failure of the list, if nothing failed before. */
  lemma {:induction false} KeepAllIsFirst(first: Error, cs: seq<Closer>)
    ensures !first.Nil? ==> KeepAll(first, cs) == first
    ensures first.Nil? && KeepAll(first, cs).Nil? ==> forall i | 0 <= i < |cs| :: Result(cs[i]).Nil?
    ensures first.Nil? && !KeepAll(first, cs).Nil? ==> exists i :: FirstFailure(cs, i) && KeepAll(first, cs) == Result(cs[i])
  {
    if cs != [] {
      var rest := cs[..|cs| - 1];
      KeepAllIsFirst(first, rest);
      if first.Nil? && KeepAll(first, rest).Nil? {
        assert forall i | 0 <= i < |rest| :: cs[i] == rest[i];
        assert !Result(cs[|cs| - 1]).Nil? ==> FirstFailure(cs, |cs| - 1);
      } else if first.Nil? {
        var i :| FirstFailure(rest, i) && KeepAll(first, rest) == Result(rest[i]);
        assert FirstFailure(cs, i);
      }
    }
  }

  lemma {:induction false} KeepAllJoins(first: Error, cs: seq<Closer>, more: seq<Closer>)
    ensures KeepAll(KeepAll(first, cs), more) == KeepAll(first, cs + more)
  {
    if more == [] {
      assert cs + more == cs;
    } else {
      var rest := more[..|more| - 1];
      KeepAllJoins(first, cs, rest);
      assert (cs + more)[..|cs + more| - 1] == cs + rest;
    }
  }

  function Result(c: Closer): Error { if c.Closes? then c.result else Nil }

  /** The place of each action in the teardown protocol. */
  function Rank(t: Teardown): nat {
    match t
    case ListenerClosed => 0
    case Joined => 1
    case SchedulerClosed => 2
    case StoreClosed => 3
    case MetadataCleaned => 4
    case DatabaseClosed => 5
    case LockReleased => 6
  }

  predicate InOrder(done: seq<Teardown>) { forall i, j | 0 <= i < j < |done| :: Rank(done[i]) <= Rank(done[j]) }

  /** No action of a higher rank has been taken yet. */
  predicate UpTo(done: seq<Teardown>, rank: nat) { forall i | 0 <= i < |done| :: Rank(done[i]) <= rank }

  /** How often an action was taken. */
  function Count(done: seq<Teardown>, t: Teardown): nat {
    if done == [] then 0 else Count(done[..|done| - 1], t) + if done[|done| - 1] == t then 1 else 0
  }

  function Present(c: Closer): nat { if c.Closes? then 1 else 0 }

  function PresentAmong(cs: seq<Closer>): nat {
    if cs == [] then 0 else PresentAmong(cs[..|cs| - 1]) + Present(cs[|cs| - 1])
  }

  /** n more actions t, everything else as before. */
  ghost predicate Added(was: seq<Teardown>, now: seq<Teardown>, t: Teardown, n: nat) {
    forall u :: Count(now, u) == Count(was, u) + if u == t then n else 0
  }

  lemma AddedOne(done: seq<Teardown>, t: Teardown)
    requires InOrder(done) && UpTo(done, Rank(t))
    ensures InOrder(done + [t]) && UpTo(done + [t], Rank(t)) && Added(done, done + [t], t, 1)
  {
    assert (done + [t])[..|done|] == done;
  }

  lemma AddedTwice(a: seq<Teardown>, b: seq<Teardown>, c: seq<Teardown>, t: Teardown, n: nat, m: nat)
    requires Added(a, b, t, n) && Added(b, c, t, m)
    ensures Added(a, c, t, n + m)
  {}

  class Shutdown {
    var err: Error
    var done: seq<Teardown>
    /** The callers inside when the teardown starts; with admission closed nobody enters later. */
    ghost var insideAtClose: map<Scope, Permit>

    constructor ()
      ensures err == Nil && done == [] && insideAtClose == map[]
    {
      err, done, insideAtClose := Nil, [], map[];
    }

    /** An action of the highest rank so far; the error kept is the first failure. */
    method Close(c: Closer, t: Teardown)
      requires InOrder(done) && UpTo(done, Rank(t))
      modifies this`err, this`done
      ensures InOrder(done) && UpTo(done, Rank(t)) && Added(old(done), done, t, Present(c))
      ensures err == KeepAll(old(err), [c])
    {
      hide InOrder, UpTo, Count;
      if c.Closes? {
        AddedOne(done, t);
        done := done + [t];
        if err.Nil? { err := c.result; }
      }
    }

    method CloseAll(cs: seq<Closer>, t: Teardown)
      requires InOrder(done) && UpTo(done, Rank(t))
      modifies this`err, this`done
      ensures InOrder(done) && UpTo(done, Rank(t)) && Added(old(done), done, t, PresentAmong(cs))
      ensures err == KeepAll(old(err), cs)
    {
      for i := 0 to |cs|
        invariant InOrder(done) && UpTo(done, Rank(t)) && Added(old(done), done, t, PresentAmong(cs[..i]))
        invariant err == KeepAll(old(err), cs[..i])
      {
        hide InOrder, UpTo, Count, Added;
        ghost var before := done;
        Close(cs[i], t);
        AddedTwice(old(done), before, done, t, PresentAmong(cs[..i]), Present(cs[i]));
        assert cs[..i + 1][..i] == cs[..i];
        KeepAllJoins(old(err), cs[..i], [cs[i]]);
        assert cs[..i] + [cs[i]] == cs[..i + 1];
      }
      assert cs[..|cs|] == cs;
    }

    lemma Nothing()
      requires done == []
      ensures InOrder(done) && UpTo(done, 0) && forall u :: Count(done, u) == 0
    {}

    lemma Later(rank: nat)
      requires UpTo(done, rank)
      ensures forall r: nat :: rank <= r ==> UpTo(done, r)
    {}

    method CleanMetadata(lease: Closer)
      requires InOrder(done) && UpTo(done, 4)
      modifies this`done
      ensures InOrder(done) && UpTo(done, 4) && Added(old(done), done, MetadataCleaned, Present(lease))
    {
      hide InOrder, UpTo, Count;
      if lease.Closes? {
        AddedOne(done, MetadataCleaned);
        done := done + [MetadataCleaned];
      }
    }

    /** Drain, and after a timeout wait for as long as it takes; without an authority there is
        nobody to wait for. */
    method JoinCallers(a: Authority?, timeout: Time, returnAt: Scope -> Time) returns (join: Error)
      requires a != null ==> a.Valid()
      modifies a, if a == null then {} else a.issued
      ensures a != null ==> a.Valid() && a.draining && a.live == map[] && a.issued == old(a.issued)
      ensures join == if a == null || (forall s | s in old(a.live) :: returnAt(s) <= timeout) then Nil else StateConflict
    {
      if a == null { return Nil; }
      var drained := a.Drain(timeout, returnAt);
      if !drained {
        a.WaitAllReleased();
      }
      return if drained then Nil else StateConflict;
    }

    /** Schedulers, store, metadata, pinned database handle, owner lock. */
    method TearDown(schedulers: seq<Closer>, store: Closer, pinned: Closer, lease: Closer)
      requires InOrder(done) && UpTo(done, 1)
      modifies this`err, this`done
      ensures InOrder(done)
      ensures forall u :: Count(done, u) == Count(old(done), u) + TornDown(u, schedulers, store, pinned, lease)
      ensures err == KeepAll(KeepAll(KeepAll(KeepAll(old(err), schedulers), [store]), [pinned]), [lease])
    {
      hide InOrder, UpTo, KeepAll, Count, PresentAmong;
      Later(1);
      CloseAll(schedulers, SchedulerClosed);
      Later(2);
      Close(store, StoreClosed);
      Later(3);
      CleanMetadata(lease);
      Later(4);
      Close(pinned, DatabaseClosed);
      Later(5);
      Close(lease, LockReleased);
    }

    function TornDown(t: Teardown, schedulers: seq<Closer>, store: Closer, pinned: Closer, lease: Closer): nat {
      match t
      case SchedulerClosed => PresentAmong(schedulers)
      case StoreClosed => Present(store)
      case MetadataCleaned => Present(lease)
      case DatabaseClosed => Present(pinned)
      case LockReleased => Present(lease)
      case _ => 0
    }

    /** ExecuteShutdownDrain: whether or not callers return in time, the store is closed only
        when none is inside, admission stays closed, the components close in their fixed order
        with the owner lock last, and the first failure is reported. */
    method ExecuteShutdownDrain(a: Authority?, timeout: Time, returnAt: Scope -> Time, pipe: Closer, http: Closer,
                                schedulers: seq<Closer>, store: Closer, pinned: Closer, lease: Closer) returns (join: Error)
      requires (a != null ==> a.Valid()) && err == Nil && done == []
      modifies this, a, if a == null then {} else a.issued
      ensures a != null ==> a.Valid() && a.draining && a.live == map[] && a.issued == old(a.issued)
      ensures insideAtClose == map[]
      // every present component is closed once, the store after the join, the lock after everything
      ensures InOrder(done)
      ensures Count(done, ListenerClosed) == Present(pipe) + Present(http) && Count(done, Joined) == 1
      ensures Count(done, SchedulerClosed) == PresentAmong(schedulers) && Count(done, StoreClosed) == Present(store)
      ensures Count(done, MetadataCleaned) == Count(done, LockReleased) == Present(lease) && Count(done, DatabaseClosed) == Present(pinned)
      ensures join.Nil? <==> a == null || forall s | s in old(a.live) :: returnAt(s) <= timeout
      ensures var all := [pipe, http, Closes(join)] + schedulers + [store, pinned, lease];
        if err.Nil? then forall i | 0 <= i < |all| :: Result(all[i]).Nil?
        else exists i :: FirstFailure(all, i) && err == Result(all[i])
    {
      hide InOrder, UpTo, KeepAll, FirstFailure, Result, Count, PresentAmong, Authority.Valid, Authority.Held;
      Nothing();
      Close(pipe, ListenerClosed);
      Close(http, ListenerClosed);
      join := JoinCallers(a, timeout, returnAt);
      Later(0);
      Close(Closes(join), Joined);
      insideAtClose := if a == null then map[] else a.live;
      TearDown(schedulers, store, pinned, lease);
      FailuresJoin(pipe, http, Closes(join), schedulers, store, pinned, lease);
    }

    /** The errors kept one after the other are the error kept over the whole list. */
    lemma FailuresJoin(pipe: Closer, http: Closer, join: Closer, schedulers: seq<Closer>, store: Closer, pinned: Closer, lease: Closer)
      ensures var all := [pipe, http, join] + schedulers + [store, pinned, lease];
        && KeepAll(KeepAll(KeepAll(KeepAll(KeepAll(KeepAll(KeepAll(Nil, [pipe]), [http]), [join]), schedulers), [store]), [pinned]), [lease]) == KeepAll(Nil, all)
        && (if KeepAll(Nil, all).Nil? then forall i | 0 <= i < |all| :: Result(all[i]).Nil?
            else exists i :: FirstFailure(all, i) && KeepAll(Nil, all) == Result(all[i]))
    {
      hide KeepAll, Keep, Result, FirstFailure;
      var all := [pipe, http, join] + schedulers + [store, pinned, lease];
      KeepAllJoins(Nil, [pipe], [http]);
      KeepAllJoins(Nil, [pipe] + [http], [join]);
      KeepAllJoins(Nil, [pipe] + [http] + [join], schedulers);
      KeepAllJoins(Nil, [pipe] + [http] + [join] + schedulers, [store]);
      KeepAllJoins(Nil, [pipe] + [http] + [join] + schedulers + [store], [pinned]);
      KeepAllJoins(Nil, [pipe] + [http] + [join] + schedulers + [store] + [pinned], [lease]);
      assert all == [pipe] + [http] + [join] + schedulers + [store] + [pinned] + [lease];
      KeepAllIsFirst(Nil, all);
    }
  }
}
