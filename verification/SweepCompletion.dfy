/** When a recovery sweep completes: which answers of AO let each of its statements commit. */
module SweepCompletion {
  import opened Domain
  import opened Tables
  import opened DispatchTransactions
  import opened ProvisioningTransactions
  import opened RecoveryTransactions
  import opened StopTransactions
  import opened RestoreTransactions
  import opened Invariants
  import opened ScanSteps
  import opened Steps
  import opened SweepRest
  import LineageTheorems
  import RowEffects
  import StopProofs
  import StopTargets
  import StopTheorems

  // --- what may be answered ----------------------------------------------------------------

  /** An answer about an execution that the sweep can act on: something, after a send no protocol
      error and the session asked for, and a handoff answer when it is asked. */
  predicate ExecutionPasses(x: Execution, answer: Answer, available: Option<bool>) {
    match x.stage
    case SendRequested => true
    case DispatchBound => !answer.AoEmpty?
    case SendConfirmed =>
      match answer
      case AoNotFound => true
      case AoUnavailable => true
      case AoStatus(session, _, _, _) => session == x.session && (HandoffAsked(x, answer) ==> available.Some?)
      case _ => false
  }

  /** An answer about an in-flight stop that leaves it waiting, hands it to a human, or settles
      it with an outcome that can commit. */
  predicate StopPasses(db: DB, o: Id, answer: Answer, now: Time)
    requires o in db.stops
  {
    var x := db.stops[o];
    var settles := !StopTargets.Unreachable(db, o);
    var late := x.stage.StopCallSucceeded? && !(x.deadline.Some? && now < x.deadline.value);
    match answer
    case AoNotFound => settles
    case AoEmpty => false
    case AoStatus(session, gen, _, terminated) =>
      && session == x.target.session
      && (gen != x.target.gen || late || (x.stage.StopRequested? && terminated) ==> settles)
      && (gen == x.target.gen && !late && !x.stage.StopRequested? && terminated ==> settles && x.callAt.Some? && x.callAt.value <= now)
    case _ => (x.stage.StopCallSucceeded? ==> x.deadline.Some?) && (late ==> settles)
  }

  /** Every candidate of a database gets an answer that passes. */
  ghost predicate SweepPasses(db: DB, ao: Id -> Answer, handoff: Id -> Option<bool>, now: Time) {
    && (forall d, confirmed :: Candidate(db, d, StopOwnedAttempts(db), confirmed) ==>
          ExecutionPasses(ExecutionOf(db, d), ao(ExecutionOf(db, d).session), handoff(d)))
    && forall o :: StopLeft(db, o) ==> StopPasses(db, o, ao(db.stops[o].target.session), now)
  }

  /** The log is no part of what the sweep asks about. */
  lemma PassesIgnoresLog(db: DB, e: DB, ao: Id -> Answer, handoff: Id -> Option<bool>, now: Time)
    requires SameTables(db, e)
    ensures SweepPasses(db, ao, handoff, now) <==> SweepPasses(e, ao, handoff, now)
  {
    hide ExecutionPasses;
    forall d, confirmed
      ensures Candidate(db, d, StopOwnedAttempts(db), confirmed) <==> Candidate(e, d, StopOwnedAttempts(e), confirmed)
      ensures Candidate(db, d, StopOwnedAttempts(db), confirmed) ==> ExecutionOf(db, d) == ExecutionOf(e, d)
    {}
  }

  // --- every statement then commits -------------------------------------------------------------

  lemma LiveFacts(db: DB, x: Execution)
    requires ScanInv(db) && Live(db, x) && (x.state.Dispatched? || x.state.Running?)
    ensures AuditLineage(db, x.pair, x.task, x.contract, x.attempt) && SessionIs(db.sessions, x.pair, x.session, x.gen)
    ensures db.attempts[x.attempt].lineage.session == x.session && db.attempts[x.attempt].lineage.gen == x.gen
    ensures db.tasks[x.task].pair == x.pair && !db.dispatches[x.op].unknown
  {
    hide LiveStopsLater, TargetsCurrent, Inv;
    AttemptNumbersUnique(db);
    StopTheorems.CurrentAttempt(db, x.op);
  }

  lemma HoldCommits(db: DB, x: Execution, hold: Disposition)
    requires ScanInv(db) && Live(db, x) && x.stage.DispatchBound? && x.state.Dispatched?
    requires hold.PreSendProtocolUnverified? || (hold.RecoveryPending? && (x.disposition.None? || x.disposition == Some(RecoveryPending)))
    ensures HoldReplayed(db, x.op, hold) || HoldAdmits(db, x.op, hold)
  {
    hide ScanInv;
    LiveFacts(db, x);
  }

  lemma CloseCommits(db: DB, x: Execution, why: Disposition)
    requires ScanInv(db) && Live(db, x) && x.state.Dispatched?
    ensures TerminalAdmits(db, x.task, Dispatched, x.attempt, why)
  {
    hide ScanInv;
    LiveFacts(db, x);
  }

  lemma RejectCommits(db: DB, x: Execution, activity: Activity)
    requires ScanInv(db) && Live(db, x) && x.stage.DispatchBound? && x.state.Dispatched?
    requires !activity.ActivityIdle? && !activity.ActivityWaitingInput?
    ensures RejectAdmits(db, x.op, activity)
  {
    hide ScanInv;
    LiveFacts(db, x);
  }

  lemma ResolveCommits(db: DB, x: Execution, activity: Activity)
    requires ScanInv(db) && Live(db, x) && x.stage.DispatchBound? && x.state.Dispatched? && x.disposition == Some(RecoveryPending)
    requires activity.ActivityIdle? || activity.ActivityWaitingInput?
    ensures ResolveHoldAdmits(db, x.op, x.attempt, RecoveryPending, x.session, x.gen, activity, None)
  {
    hide ScanInv;
    LiveFacts(db, x);
  }

  lemma UnownedNotStopped(db: DB, x: Execution)
    requires Live(db, x) && x.attempt !in StopOwnedAttempts(db)
    ensures !StopOwned(db.stops, x)
  {}

  lemma OutageCommits(db: DB, x: Execution)
    requires ScanInv(db) && Live(db, x) && x.stage.SendConfirmed? && (x.state.Dispatched? || x.state.Running?) && x.attempt !in StopOwnedAttempts(db)
    requires x.disposition.None? || x.disposition == Some(RecoveryPending)
    ensures OutageReplayed(db, x) || OutageAdmits(db, x)
  {
    hide ScanInv, StopOwned, StopOwnedAttempts;
    LiveFacts(db, x);
    UnownedNotStopped(db, x);
  }

  lemma ObserveCommits(db: DB, x: Execution, seen: PostSend)
    requires ScanInv(db) && Live(db, x) && x.stage.SendConfirmed? && (x.state.Dispatched? || x.state.Running?) && x.attempt !in StopOwnedAttempts(db)
    requires seen.session == x.session
    ensures ObserveAdmits(db, x, seen)
  {
    hide ScanInv, StopOwned, StopOwnedAttempts;
    LiveFacts(db, x);
    UnownedNotStopped(db, x);
  }

  lemma RestoreClassifies(db: DB, r: Id)
    requires ScanInv(db) && r in db.restores && db.restores[r].resolution.RestoreInFlight?
    ensures InterruptedReplayed(db, r) || InterruptedAdmits(db, r)
  {
    hide LiveStopsLater, TargetsCurrent;
    assert RestoreInv(db.restores, db.sessions);
  }

  /** One interrupted restore has been classified. */
  lemma RestoreClassified(start: DB, db: DB, r: Id)
    requires ScanInv(db) && InterruptedAdmits(db, r) && Shrinks(start, db) && ExecutionsSame(start, db)
    ensures var e := InterruptedCommit(db, r);
      && ScanInv(e) && Shrinks(start, e) && ExecutionsSame(start, e) && SameStops(db, e)
      && e.provisions == db.provisions && RestoreLeft(db, r) && !RestoreLeft(e, r) && (forall k :: RestoreLeft(e, k) ==> RestoreLeft(db, k))
      && forall k | k in db.restores && k != r :: k in e.restores && e.restores[k] == db.restores[k]
  {
    hide ScanInv, Shrinks, ExecutionsSame;
    var e := InterruptedCommit(db, r);
    ScanStep(db, RestoreStep(ClassifyInterrupted(r)));
    InterruptedExecutions(db, r);
    ExecutionsSameTwice(start, db, e);
    ShrinksTwice(start, db, e);
  }

  lemma ProvisionFailedNow(start: DB, db: DB, p: Id)
    requires ScanInv(db) && FailProvisionAdmits(db, p) && Shrinks(start, db) && ExecutionsSame(start, db)
    ensures var e := FailProvisionCommit(db, p);
      && ScanInv(e) && Shrinks(start, e) && ExecutionsSame(start, e) && SameStops(db, e)
      && ProvisionLeft(db, p) && forall k :: ProvisionLeft(e, k) <==> ProvisionLeft(db, k) && k != p
  {
    hide ScanInv, Shrinks, ExecutionsSame;
    var e := FailProvisionCommit(db, p);
    ScanStep(db, PairStep(FailProvision(p)));
    FailedExecutions(db, p);
    ExecutionsSameTwice(start, db, e);
    ShrinksTwice(start, db, e);
  }

  /** Only in a production run is a fitting outcome of a live stop sure to commit. */
  lemma OutcomeCommits(db: DB, op: Id, o: Outcome)
    requires ScanInv(db) && op in db.stops
    ensures StopOutcomeAdmits(db, op, o) ==> OutcomeFits(db.stops[op], o) && !StopTargets.Unreachable(db, op)
    ensures SagaInv(db) && OutcomeFits(db.stops[op], o) && !StopTargets.Unreachable(db, op) ==> StopOutcomeAdmits(db, op, o)
  {
    if SagaInv(db) {
      hide LiveStopsLater, SagaInv, Inv, StopOutcomeAdmits, OutcomeFits, StopTargets.Unreachable, StopTargets.TargetCurrent;
      StopTargets.OutcomeCommits1(db, op, o);
    }
    if StopOutcomeAdmits(db, op, o) { UnreachableRejects(db, op, o); }
  }

  lemma UnreachableRejects(db: DB, op: Id, o: Outcome)
    requires StopOutcomeAdmits(db, op, o)
    ensures OutcomeFits(db.stops[op], o) && !StopTargets.Unreachable(db, op)
  {
    hide StopAudit, OutcomeFits, OwnerAdmits;
  }

  lemma AbandonCommits(db: DB, op: Id)
    requires ScanInv(db) && StopLeft(db, op) && db.stops[op].stage.StopRequested?
    ensures AbandonedAdmits(db, op, db.stops[op].target.session, db.stops[op].target.gen)
  {
    hide LiveStopsLater, TargetsCurrent, Inv, StopAudit, OwnerAdmits;
    StopTheorems.PendingStop1(db, op);
    StopTargets.StopAuditHolds(db, op);
  }

  /** What a stop has to be answered depends on its row and its Pair's runtime alone. */
  lemma StopPassesSame(db: DB, e: DB, o: Id, answer: Answer, now: Time)
    requires ScanInv(db) && o in db.stops && o in e.stops && e.stops[o] == db.stops[o] && RuntimesKept(db, e)
    ensures StopPasses(e, o, answer, now) <==> StopPasses(db, o, answer, now)
  {
    hide Inv, LiveStopsLater, TargetsCurrent, RuntimesKept;
    StopTheorems.StopRow1(db, o);
    RuntimeSame(db, e, db.stops[o].target.pair);
  }

  lemma RuntimeSame(db: DB, e: DB, pair: Id)
    requires RuntimesKept(db, e)
    ensures StopTargets.SameRuntime(db, e, pair)
  {}

  lemma SnapshotReadable(db: DB)
    requires SagaInv(db)
    ensures !SnapshotInconsistent(db)
  {
    hide SagaInv;
    LineageTheorems.SnapshotConsistent1(db);
  }

  /** The rows of one send phase that the sweep does not skip. */
  predicate InPhase(x: Execution, owned: set<Id>, confirmed: bool) { x.attempt !in owned && x.stage.SendConfirmed? == confirmed }

  // --- candidates of the second phase ---------------------------------------------------------------

  /** The candidates of these send phases that no live stop owns are the same. */
  ghost predicate CandidatesSame(db: DB, e: DB, owned: set<Id>, phases: set<bool>) {
    forall d, sent | sent in phases ::
      (Candidate(db, d, owned, sent) <==> Candidate(e, d, owned, sent)) && (Candidate(db, d, owned, sent) ==> SameExecution(db, e, d))
  }

  lemma CandidatesSameTwice(a: DB, b: DB, c: DB, owned: set<Id>, phases: set<bool>)
    requires CandidatesSame(a, b, owned, phases) && CandidatesSame(b, c, owned, phases)
    ensures CandidatesSame(a, c, owned, phases)
  {
    forall d, sent | sent in phases
      ensures (Candidate(a, d, owned, sent) <==> Candidate(c, d, owned, sent)) && (Candidate(a, d, owned, sent) ==> SameExecution(a, c, d))
    {
      if Candidate(a, d, owned, sent) {
        assert Candidate(b, d, owned, sent) && SameExecution(a, b, d) && SameExecution(b, c, d);
      }
    }
  }

  lemma CandidatesFewer(db: DB, e: DB, owned: set<Id>, more: set<bool>, phases: set<bool>)
    requires CandidatesSame(db, e, owned, more) && phases <= more
    ensures CandidatesSame(db, e, owned, phases)
  {}

  lemma CandidatesSameAll(db: DB, e: DB, owned: set<Id>, phases: set<bool>)
    requires ExecutionsSame(db, e)
    ensures CandidatesSame(db, e, owned, phases)
  {
    forall d, sent ensures SameExecution(db, e, d) && (Candidate(db, d, owned, sent) <==> Candidate(e, d, owned, sent)) { assert SameExecution(db, e, d); }
  }

  lemma CandidatesSameOthers(db: DB, e: DB, x: Execution, owned: set<Id>, sent: bool)
    requires OthersSame(db, e, x.op) && StagesKept(db, e) && Live(db, x) && x.stage.SendConfirmed? != sent
    ensures CandidatesSame(db, e, owned, {sent})
  {
    forall d
      ensures (Candidate(db, d, owned, sent) <==> Candidate(e, d, owned, sent)) && (Candidate(db, d, owned, sent) ==> SameExecution(db, e, d))
    {
      if d != x.op { assert SameExecution(db, e, d); }
    }
  }

  lemma CandidatesSameUnowned(db: DB, e: DB, owned: set<Id>, phases: set<bool>)
    requires UnownedSame(db, e) && StopOwnedAttempts(db) <= owned && e.dispatches == db.dispatches
    ensures CandidatesSame(db, e, owned, phases)
  {
    forall d, sent
      ensures (Candidate(db, d, owned, sent) <==> Candidate(e, d, owned, sent)) && (Candidate(db, d, owned, sent) ==> SameExecution(db, e, d))
    {
      if Candidate(db, d, owned, sent) || Candidate(e, d, owned, sent) { assert Unowned(db, d); }
    }
  }

  /** Closing a blocked attempt leaves every candidate. */
  lemma CandidatesSameClosure(db: DB, task: Id, a: Id, at: Time, owned: set<Id>, phases: set<bool>)
    requires ScanInv(db) && ClosureAdmits(db, task, a)
    ensures CandidatesSame(db, ClosureCommit(db, task, a, at), owned, phases)
  {
    hide LiveStopsLater, TargetsCurrent, Inv;
    var e := ClosureCommit(db, task, a, at);
    AttemptNumbersUnique(db);
    forall d, sent
      ensures (Candidate(db, d, owned, sent) <==> Candidate(e, d, owned, sent)) && (Candidate(db, d, owned, sent) ==> SameExecution(db, e, d))
    {
    }
  }

  /** The closure of a blocked attempt. */
  predicate Closes(db: DB, e: DB, a: Id, at: Time) {
    && a in db.attempts && ClosureAdmits(db, db.attempts[a].lineage.task, a)
    && e == ClosureCommit(db, db.attempts[a].lineage.task, a, at)
  }

  /** Two blocked attempts belong to two tasks. */
  lemma ClosureLeavesBlocked(db: DB, a: Id, at: Time)
    requires ScanInv(db) && BlockedLeft(db, a) && ClosureAdmits(db, db.attempts[a].lineage.task, a)
    ensures var e := ClosureCommit(db, db.attempts[a].lineage.task, a, at); forall k :: BlockedLeft(e, k) <==> BlockedLeft(db, k) && k != a
  {
    hide LiveStopsLater, TargetsCurrent, Inv;
    AttemptNumbersUnique(db);
  }

  // --- blocked attempts stay listed -------------------------------------------------------------------

  ghost predicate BlockedKept(db: DB, e: DB) { forall a :: BlockedLeft(db, a) ==> BlockedLeft(e, a) }

  lemma BlockedKeptTwice(a: DB, b: DB, c: DB)
    requires BlockedKept(a, b) && BlockedKept(b, c)
    ensures BlockedKept(a, c)
  {}

  /** A blocked attempt is an execution of its own. */
  lemma BlockedExecution(db: DB, a: Id) returns (d: Id)
    requires ScanInv(db) && BlockedLeft(db, a)
    ensures HasExecution(db, d) && db.dispatches[d].bound.attempt == a && ExecutionOf(db, d).state.Blocked?
    ensures db.dispatches[d].bound.task == db.attempts[a].lineage.task
  {
    hide LiveStopsLater, TargetsCurrent;
    assert DispatchRefs(db.tasks, db.attempts, db.dispatches) && DispatchComplete(db.attempts, db.dispatches);
    d :| Dispatches(db.dispatches, d, a);
  }

  lemma BlockedStays(db: DB, e: DB, a: Id, d: Id)
    requires BlockedLeft(db, a) && HasExecution(db, d) && db.dispatches[d].bound.attempt == a && db.dispatches[d].bound.task == db.attempts[a].lineage.task
    requires SameExecution(db, e, d) && OwnersKept(db, e)
    ensures BlockedLeft(e, a)
  {}

  lemma BlockedInAll(db: DB, e: DB)
    requires ScanInv(db) && ExecutionsSame(db, e) && OwnersKept(db, e)
    ensures BlockedKept(db, e)
  {
    hide ScanInv, BlockedLeft, OwnersKept;
    forall a | BlockedLeft(db, a) ensures BlockedLeft(e, a) {
      var d := BlockedExecution(db, a);
      assert SameExecution(db, e, d);
      BlockedStays(db, e, a, d);
    }
  }

  lemma BlockedInOthers(db: DB, e: DB, x: Execution)
    requires ScanInv(db) && OthersSame(db, e, x.op) && OwnersKept(db, e) && Live(db, x) && !x.state.Blocked?
    ensures BlockedKept(db, e)
  {
    hide ScanInv, BlockedLeft, OwnersKept;
    forall a | BlockedLeft(db, a) ensures BlockedLeft(e, a) {
      var d := BlockedExecution(db, a);
      assert SameExecution(db, e, d);
      BlockedStays(db, e, a, d);
    }
  }

  lemma OutcomeKeepsBlocked(db: DB, op: Id, o: Outcome)
    requires StopOutcomeAdmits(db, op, o)
    ensures BlockedKept(db, StopOutcomeCommit(db, op, o))
  {
    hide OutcomeFits, OutcomeEvent, StopAudit, OtherRisk;
  }

  lemma AbandonedKeepsBlocked(db: DB, op: Id, at: Time)
    requires op in db.stops
    ensures BlockedKept(db, AbandonedCommit(db, op, at))
  {}

  // --- one stop ---------------------------------------------------------------------------------------

  /** Classifying one stop leaves every other stop, every blocked attempt and every execution
      that no live stop owns. */
  ghost predicate StopTouched(db: DB, e: DB, op: Id) {
    Shrinks(db, e) && OtherStopsKept(db, e, op) && BlockedKept(db, e) && UnownedSame(db, e) && e.dispatches == db.dispatches
  }

  /** The result an answer calls for on an in-flight stop; None leaves the row as it is. */
  function StopVerdict(x: Stop, answer: Answer, now: Time): Option<(StopStage, Resolution)> {
    var late := x.stage == StopCallSucceeded && !(x.deadline.Some? && now < x.deadline.value);
    match answer
    case AoNotFound => Some((StopTargetAbsent, TargetAbsent))
    case AoStatus(_, gen, _, terminated) =>
      if gen != x.target.gen then Some((x.stage, GenerationMismatch))
      else if x.stage == StopRequested then Some((StopRequested, if terminated then EffectUnproven else ReissueRequiresHuman))
      else if late then Some((x.stage, ConfirmationTimeout))
      else if terminated then Some((StopTerminationConfirmed, TerminationConfirmed))
      else None
    case _ => if late then Some((x.stage, ConfirmationTimeout)) else None
  }

  predicate StopJudged(was: Stop, now_: Stop, answer: Answer, at: Time) {
    match StopVerdict(was, answer, at)
    case None => now_ == was
    case Some(v) => now_.stage == v.0 && now_.resolution == v.1
  }

  predicate ShowsResult(e: DB, op: Id, o: Outcome) { op in e.stops && e.stops[op].stage == o.stage && e.stops[op].resolution == o.resolution }

  /** What becomes of an in-flight stop under one answer at one instant. */
  ghost predicate StopHandled(db: DB, e: DB, op: Id, err: Error, pending: bool, answer: Answer, now: Time)
    requires op in db.stops
  {
    && StopTouched(db, e, op)
    && (!err.Nil? ==> e == db)
    && (err.Nil? ==>
          && (pending || !StopLeft(e, op)) && StopPasses(db, op, answer, now)
          && (StopLeft(e, op) ==> e == db && Waiting(db.stops[op], answer, now))
          && op in e.stops && StopJudged(db.stops[op], e.stops[op], answer, now))
    && (SagaInv(db) && StopPasses(db, op, answer, now) ==> err.Nil?)
    && (Waiting(db.stops[op], answer, now) ==> e == db)
  }

  lemma Untouched(db: DB, op: Id)
    ensures StopTouched(db, db, op)
  {
    hide Shrinks;
    ShrinksSelf(db);
  }

  lemma OutcomeTouches(db: DB, op: Id, o: Outcome)
    requires ScanInv(db) && StopOutcomeAdmits(db, op, o)
    ensures var e := StopOutcomeCommit(db, op, o); ScanInv(e) && StopTouched(db, e, op) && !StopLeft(e, op) && ShowsResult(e, op, o)
  {
    hide ScanInv, Shrinks, UnownedSame, BlockedKept, OtherStopsKept, StopOutcomeAdmits;
    ScanStep(db, StopStep(CommitOutcome(op, o)));
    OutcomeSettles(db, op, o);
    OutcomeLeavesUnowned(db, op, o);
    OutcomeKeepsBlocked(db, op, o);
    StopProofs.OutcomeFramed(db, StopOutcomeCommit(db, op, o), op, o);
    OutcomeShown(db, op, o);
  }

  lemma OutcomeShown(db: DB, op: Id, o: Outcome)
    requires StopOutcomeAdmits(db, op, o)
    ensures ShowsResult(StopOutcomeCommit(db, op, o), op, o)
  {
    hide StopOutcomeCommit, RowEffects.LineageRows, RowEffects.PairRows, RowEffects.LogAfter;
    RowEffects.StopStepRows(db, CommitOutcome(op, o));
    assert RowEffects.Row(StopOutcomeCommit(db, op, o).stops, op) == RowEffects.StopAfter(db, StopStep(CommitOutcome(op, o)), op);
  }

  lemma AbandonedTouches(db: DB, op: Id, session: Id, gen: Id, at: Time)
    requires ScanInv(db) && AbandonedAdmits(db, op, session, gen)
    ensures var e := AbandonedCommit(db, op, at); ScanInv(e) && StopTouched(db, e, op) && !StopLeft(e, op)
    ensures var e := AbandonedCommit(db, op, at); op in e.stops && e.stops[op].stage == StopRequested && e.stops[op].resolution == ReissueRequiresHuman
  {
    hide ScanInv, Shrinks, UnownedSame, BlockedKept;
    ScanStep(db, StopStep(ClassifyAbandoned(op, session, gen, at)));
    AbandonedLeavesUnowned(db, op, at);
    AbandonedKeepsBlocked(db, op, at);
  }

  /** An outcome was offered that fits exactly when the answer passes. */
  lemma OutcomeHandled(db: DB, e: DB, op: Id, o: Outcome, err: Error, pending: bool, answer: Answer, now: Time)
    requires op in db.stops && StopTouched(db, e, op)
    requires if err.Nil? then !StopLeft(e, op) && OutcomeFits(db.stops[op], o) && !StopTargets.Unreachable(db, op) else e == db
    requires SagaInv(db) && OutcomeFits(db.stops[op], o) && !StopTargets.Unreachable(db, op) ==> err.Nil?
    requires StopPasses(db, op, answer, now) <==> OutcomeFits(db.stops[op], o) && !StopTargets.Unreachable(db, op)
    requires !Waiting(db.stops[op], answer, now)
    requires err.Nil? ==> ShowsResult(e, op, o) && StopVerdict(db.stops[op], answer, now) == Some((o.stage, o.resolution))
    ensures StopHandled(db, e, op, err, pending, answer, now)
  {
    hide StopTouched, SagaInv, StopPasses, OutcomeFits, StopTargets.Unreachable, Waiting, StopVerdict;
  }

  lemma AbsentFits(db: DB, op: Id, at: Time)
    requires StopLeft(db, op) && (db.stops[op].stage.StopRequested? || db.stops[op].stage.StopCallSucceeded?)
    ensures OutcomeFits(db.stops[op], StopTransactions.Outcome(db.stops[op].stage, StopTargetAbsent, TargetAbsent, at, None))
    ensures StopPasses(db, op, AoNotFound, at) <==> !StopTargets.Unreachable(db, op)
    ensures !Waiting(db.stops[op], AoNotFound, at) && StopVerdict(db.stops[op], AoNotFound, at) == Some((StopTargetAbsent, TargetAbsent))
  {}

  lemma UnseenFits(db: DB, op: Id, answer: Answer, now: Time, at: Time)
    requires StopLeft(db, op) && (answer.AoProtocolError? || answer.AoUnavailable?)
    requires db.stops[op].stage.StopCallSucceeded? && db.stops[op].deadline.Some? && now >= db.stops[op].deadline.value
    ensures OutcomeFits(db.stops[op], StopTransactions.Outcome(StopCallSucceeded, StopCallSucceeded, ConfirmationTimeout, at, None))
    ensures StopPasses(db, op, answer, now) <==> !StopTargets.Unreachable(db, op)
    ensures !Waiting(db.stops[op], answer, now) && StopVerdict(db.stops[op], answer, now) == Some((StopCallSucceeded, ConfirmationTimeout))
  {}

  /** The outcome the sweep chooses for a session it has seen. */
  function SeenOutcome(x: Stop, answer: Answer, now: Time): Outcome
    requires answer.AoStatus?
  {
    var seen := Some(Observation(answer.session, answer.gen, answer.terminated));
    if answer.gen != x.target.gen then StopTransactions.Outcome(x.stage, x.stage, GenerationMismatch, now, seen)
    else if x.stage.StopRequested? then StopTransactions.Outcome(StopRequested, StopRequested, EffectUnproven, now, seen)
    else if x.deadline.Some? && now < x.deadline.value
      then StopTransactions.Outcome(StopCallSucceeded, StopTerminationConfirmed, TerminationConfirmed, now, seen)
    else StopTransactions.Outcome(StopCallSucceeded, StopCallSucceeded, ConfirmationTimeout, now, seen)
  }

  lemma SeenFits(db: DB, op: Id, answer: Answer, now: Time)
    requires StopLeft(db, op) && (db.stops[op].stage.StopRequested? || db.stops[op].stage.StopCallSucceeded?)
    requires answer.AoStatus? && answer.session == db.stops[op].target.session
    requires answer.terminated || answer.gen != db.stops[op].target.gen
             || (db.stops[op].stage.StopCallSucceeded? && !(db.stops[op].deadline.Some? && now < db.stops[op].deadline.value))
    ensures StopPasses(db, op, answer, now) <==> OutcomeFits(db.stops[op], SeenOutcome(db.stops[op], answer, now)) && !StopTargets.Unreachable(db, op)
    ensures !Waiting(db.stops[op], answer, now)
    ensures var o := SeenOutcome(db.stops[op], answer, now); StopPasses(db, op, answer, now) ==> StopVerdict(db.stops[op], answer, now) == Some((o.stage, o.resolution))
  {
    hide StopTargets.Unreachable;
  }

  /** An overdue stranded stop passes under no answer. */
  lemma OverdueFails(db: DB, op: Id, answer: Answer, now: Time)
    requires Overdue(db, op, now)
    ensures !StopPasses(db, op, answer, now)
  {}

  // --- what the report counts ------------------------------------------------------------------------------

  function InFlightRestores(db: DB): set<Id> { set r | r in db.restores && db.restores[r].resolution.RestoreInFlight? }

  function UnansweredProvisions(db: DB): set<Id> { set p | p in db.provisions && db.provisions[p].stage.ProvisionRequested? }

  function InFlightStops(db: DB): set<Id> { set o | o in db.stops && StopLeft(db, o) }

  function BlockedAttempts(db: DB): set<Id> { set a | a in db.attempts && BlockedLeft(db, a) }

  function Candidates(db: DB, owned: set<Id>, confirmed: bool): set<Id> {
    set d | d in db.dispatches && Candidate(db, d, owned, confirmed)
  }

  /** Everything a sweep of this database has to classify. */
  function Backlog(db: DB): nat {
    var owned := StopOwnedAttempts(db);
    |InFlightRestores(db)| + |UnansweredProvisions(db)| + |Candidates(db, owned, false)|
    + |InFlightStops(db)| + |BlockedAttempts(db)| + |Candidates(db, owned, true)|
  }

  function CountIn(xs: seq<Execution>, owned: set<Id>, confirmed: bool): nat {
    if xs == [] then 0 else (if InPhase(xs[0], owned, confirmed) then 1 else 0) + CountIn(xs[1..], owned, confirmed)
  }

  function PhaseOps(xs: seq<Execution>, owned: set<Id>, confirmed: bool): set<Id> {
    set i | 0 <= i < |xs| && InPhase(xs[i], owned, confirmed) :: xs[i].op
  }

  lemma {:induction false} CountsOps(xs: seq<Execution>, owned: set<Id>, confirmed: bool)
    requires forall i, j | 0 <= i < j < |xs| :: xs[i].op != xs[j].op
    ensures CountIn(xs, owned, confirmed) == |PhaseOps(xs, owned, confirmed)|
  {
    if xs != [] {
      var rest := PhaseOps(xs[1..], owned, confirmed);
      CountsOps(xs[1..], owned, confirmed);
      if InPhase(xs[0], owned, confirmed) {
        assert PhaseOps(xs, owned, confirmed) == rest + {xs[0].op} by { PhaseOpsOf(xs, owned, confirmed); }
        assert xs[0].op !in rest;
      } else {
        assert PhaseOps(xs, owned, confirmed) == rest by { PhaseOpsOf(xs, owned, confirmed); }
      }
    }
  }

  lemma PhaseOpsOf(xs: seq<Execution>, owned: set<Id>, confirmed: bool)
    requires |xs| > 0
    ensures PhaseOps(xs, owned, confirmed) == PhaseOps(xs[1..], owned, confirmed) + if InPhase(xs[0], owned, confirmed) then {xs[0].op} else {}
  {
    forall d | d in PhaseOps(xs, owned, confirmed)
      ensures d in PhaseOps(xs[1..], owned, confirmed) + if InPhase(xs[0], owned, confirmed) then {xs[0].op} else {}
    {
      var i :| 0 <= i < |xs| && InPhase(xs[i], owned, confirmed) && xs[i].op == d;
      if i > 0 { assert xs[1..][i - 1] == xs[i]; }
    }
  }

  /** The rows of one phase are the candidates of their database. */
  lemma CountsCandidates(db: DB, xs: seq<Execution>, owned: set<Id>, confirmed: bool)
    requires AllLive(db, xs) && forall d :: Candidate(db, d, owned, confirmed) ==> d in Ops(xs)
    ensures CountIn(xs, owned, confirmed) == |Candidates(db, owned, confirmed)|
  {
    CountsOps(xs, owned, confirmed);
    forall d | d in Candidates(db, owned, confirmed) ensures d in PhaseOps(xs, owned, confirmed) {
      var i :| 0 <= i < |xs| && xs[i].op == d;
      assert InPhase(xs[i], owned, confirmed);
    }
    assert PhaseOps(xs, owned, confirmed) == Candidates(db, owned, confirmed);
  }

  lemma SameCandidates(db: DB, e: DB, owned: set<Id>, confirmed: bool)
    requires ExecutionsSame(db, e) || CandidatesSame(db, e, owned, {confirmed})
    ensures Candidates(e, owned, confirmed) == Candidates(db, owned, confirmed)
  {
    forall d ensures Candidate(db, d, owned, confirmed) <==> Candidate(e, d, owned, confirmed) {
      if ExecutionsSame(db, e) { assert SameExecution(db, e, d); }
    }
  }

  lemma SameBacklog(db: DB, e: DB)
    requires SameTables(db, e)
    ensures Backlog(e) == Backlog(db)
  {
    assert InFlightStops(e) == InFlightStops(db) && BlockedAttempts(e) == BlockedAttempts(db);
    assert Candidates(e, StopOwnedAttempts(e), false) == Candidates(db, StopOwnedAttempts(db), false);
    assert Candidates(e, StopOwnedAttempts(e), true) == Candidates(db, StopOwnedAttempts(db), true);
  }
}
