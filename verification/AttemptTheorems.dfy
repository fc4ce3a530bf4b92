/**
 Main results about refresh attempts and the supervisors' claims, for every run:
 single flight, reference counting, and exclusive claims.
*/
module AttemptTheorems {
  import opened Base
  import opened Basics
  import opened ClientCore
  import opened CoreEvents
  import opened Places
  import opened Protocol
  import opened Tokens
  import A = Attempts
  import Commits
  import G = Generations

  // ----- single flight ----------------------------------------------------------

  /** At the token endpoint, or with an answer that has not been applied in full. */
  predicate Working(pc: Pc) {
    Runs(pc).Some? && !pc.Completing?
  }

  /** At most one refresh attempt of a Client is at work at any moment, and it is the
      current one. In particular at most one grant is in flight. */
  lemma SingleFlight(r: Run, i: nat, t: Thread, u: Thread)
    requires IsRun(r) && i < |r.states|
    requires Working(PcOf(r.states[i], t)) && Working(PcOf(r.states[i], u))
    ensures t == u
    ensures t.Goroutine? && r.states[i].shared.current == Some(t.attempt)
    ensures Runs(PcOf(r.states[i], t)) == Some(t.attempt)
  {
    RunInv(r, i);
    WorkerIsCurrent(r.states[i], t);
    WorkerIsCurrent(r.states[i], u);
  }

  lemma WorkerIsCurrent(s: System, t: Thread)
    requires Inv(s) && Working(PcOf(s, t))
    ensures t.Goroutine? && s.shared.current == Some(t.attempt)
    ensures Runs(PcOf(s, t)) == Some(t.attempt)
  {
    hide G.Shape, G.Fits;
    assert Local(s.shared, t, PcOf(s, t));
    assert A.AttemptOk(s.shared, t.attempt);
  }

  /** A new attempt starts only when no attempt is unfinished, and only for a generation
      that carries a refresh token and is not parked. */
  lemma NoOverlap(r: Run, i: nat)
    requires IsRun(r) && i < |r.labels|
    ensures
      var sh, sh' := r.states[i].shared, r.states[i + 1].shared;
      sh'.nextAttempt != sh.nextAttempt ==>
        && r.labels[i].action.TryRefresh?
        && sh.current == None
        && (forall a :: a in sh.attempts ==> sh.attempts[a].outcome.Some?)
        && sh'.current == Some(sh.nextAttempt)
        && sh'.nextAttempt == sh.nextAttempt + 1
        && sh.nextAttempt in sh'.attempts
        && sh'.attempts[sh.nextAttempt].revision == sh.core.revision
        && sh'.attempts[sh.nextAttempt].snapshot == sh.core.state
        && sh.core.state.refreshToken != ""
        && !Parked(sh.core)
  {
    hide Do, Local, Initial;
    RunInv(r, i);
    assert IsStep(r, i);
    var sh, sh', t, act := r.states[i].shared, r.states[i + 1].shared, r.labels[i].thread, r.labels[i].action;
    var pc, pc' := PcOf(r.states[i], t), PcOf(r.states[i + 1], t);
    assert Local(sh, t, pc);
    AttemptsAreBegun(sh, t, pc, act, sh', pc');
    if sh'.nextAttempt != sh.nextAttempt {
      forall a | a in sh.attempts ensures sh.attempts[a].outcome.Some? {
        assert A.AttemptOk(sh, a);
      }
    }
  }

  lemma AttemptsAreBegun(sh: Shared, t: Thread, pc: Pc, act: Action, sh': Shared, pc': Pc)
    requires Local(sh, t, pc) && Global(sh) && Do(sh, t, pc, act) == Some((sh', pc'))
    ensures sh'.nextAttempt != sh.nextAttempt ==>
              && act.TryRefresh?
              && sh.current == None
              && sh'.attempts == A.LedAttempts(sh, t)
              && sh'.current == Some(sh.nextAttempt)
              && sh'.nextAttempt == sh.nextAttempt + 1
              && sh.core.state.refreshToken != ""
              && !Parked(sh.core)
  {
    EveryActionIsGrouped(act);
    LocalSnapshot(sh, t, pc);
    hide *;
    Dispatch(sh, t, pc, act);
    if act.TryRefresh? {
      TryBegins(sh, t, pc, act.ctxDone, sh', pc');
    } else if act.CancelWait? || act.ReadOutcome? {
      LeavingBeginsNothing(sh, t, pc, act, sh', pc');
    } else if act.Launch? {
      LaunchBeginsNothing(sh, t, pc, sh', pc');
    } else if act.FinishAttempt? || act.CloseComplete? {
      ClosingBeginsNothing(sh, t, pc, act, sh', pc');
    } else {
      OtherActions(act);
      OtherActionsLeaveAttempts(sh, t, pc, act, sh', pc');
      SameNext(sh, sh');
    }
  }

  lemma LocalSnapshot(sh: Shared, t: Thread, pc: Pc)
    requires Local(sh, t, pc) && Global(sh)
    ensures G.SnapshotFits(sh, pc) && G.Keyed(sh)
  {}

  lemma OtherActions(act: Action)
    requires !act.TryRefresh? && !act.CancelWait? && !act.ReadOutcome?
    requires !act.Launch? && !act.FinishAttempt? && !act.CloseComplete?
    ensures !A.TouchesAttempts(act)
  {}

  lemma SameNext(sh: Shared, sh': Shared)
    requires A.SameAttempts(sh, sh')
    ensures sh'.nextAttempt == sh.nextAttempt
  {}

  lemma TryBegins(sh: Shared, t: Thread, pc: Pc, ctxDone: bool, sh': Shared, pc': Pc)
    requires G.SnapshotFits(sh, pc) && G.Keyed(sh)
    requires DoJoin(sh, t, pc, TryRefresh(ctxDone)) == Some((sh', pc'))
    ensures sh'.nextAttempt != sh.nextAttempt ==>
              && sh.current == None
              && sh'.attempts == A.LedAttempts(sh, t)
              && sh'.current == Some(sh.nextAttempt)
              && sh'.nextAttempt == sh.nextAttempt + 1
              && sh.core.state.refreshToken != ""
              && !Parked(sh.core)
  {
    A.TryEffect(sh, t, pc, ctxDone, sh', pc');
    var s := SnapshotOf(pc).value;
    A.TryBeginCases(sh, t, s.state, s.revision, if pc.LoopTrying? then pc.claim.id else 0);
    hide DoJoin, TryBegin, Admit;
  }

  lemma LeavingBeginsNothing(sh: Shared, t: Thread, pc: Pc, act: Action, sh': Shared, pc': Pc)
    requires act.CancelWait? || act.ReadOutcome?
    requires DoJoin(sh, t, pc, act) == Some((sh', pc'))
    ensures sh'.nextAttempt == sh.nextAttempt
  {
    A.LeaveCases(sh, t, pc, act, sh', pc');
    hide DoJoin;
  }

  lemma LaunchBeginsNothing(sh: Shared, t: Thread, pc: Pc, sh': Shared, pc': Pc)
    requires DoGrant(sh, t, pc, Launch) == Some((sh', pc'))
    ensures sh'.nextAttempt == sh.nextAttempt
  {}

  lemma ClosingBeginsNothing(sh: Shared, t: Thread, pc: Pc, act: Action, sh': Shared, pc': Pc)
    requires DoClose(sh, t, pc, act) == Some((sh', pc'))
    ensures sh'.nextAttempt == sh.nextAttempt
  {}

  // ----- participants -----------------------------------------------------------

  /** `participants` counts exactly the callers that joined and have not left. */
  lemma ParticipantsCountWaiters(r: Run, i: nat, a: nat)
    requires IsRun(r) && i < |r.states| && a in r.states[i].shared.attempts
    ensures
      var s := r.states[i];
      var at := s.shared.attempts[a];
      && at.participants == |at.joined|
      && (forall t :: t in at.joined <==> WaitsOn(PcOf(s, t)) == Some(a))
  {
    hide G.Shape, G.Fits, Initial;
    RunInv(r, i);
    var s := r.states[i];
    assert A.AttemptOk(s.shared, a);
    forall t ensures t in s.shared.attempts[a].joined <==> WaitsOn(PcOf(s, t)) == Some(a) {
      assert Local(s.shared, t, PcOf(s, t));
    }
  }

  /** An unfinished attempt is cancelled exactly when its last participant has left,
      and nobody joins it again; until it has finished it stays the current attempt,
      so that no other one starts. */
  lemma {:induction false} AbandonedForGood(r: Run, i: nat, j: nat, a: nat)
    requires IsRun(r) && i <= j < |r.states|
    requires a in r.states[i].shared.attempts && r.states[i].shared.attempts[a].participants == 0
    ensures a in r.states[j].shared.attempts && r.states[j].shared.attempts[a].participants == 0
    ensures r.states[j].shared.attempts[a].outcome.None? ==>
              && r.states[j].shared.attempts[a].cancelled
              && r.states[j].shared.current == Some(a)
    decreases j
  {
    hide Do, Local, Initial;
    RunInv(r, j);
    if i < j {
      AbandonedForGood(r, i, j - 1, a);
      RunInv(r, j - 1);
      assert IsStep(r, j - 1);
      var t, act := r.labels[j - 1].thread, r.labels[j - 1].action;
      var s, s' := r.states[j - 1], r.states[j];
      assert Local(s.shared, t, PcOf(s, t));
      ZeroStaysZero(s.shared, t, PcOf(s, t), act, s'.shared, PcOf(s', t), a);
    }
    assert A.AttemptOk(r.states[j].shared, a);
  }

  lemma ZeroStaysZero(sh: Shared, t: Thread, pc: Pc, act: Action, sh': Shared, pc': Pc, a: nat)
    requires Local(sh, t, pc) && Global(sh) && Do(sh, t, pc, act) == Some((sh', pc'))
    requires a in sh.attempts && sh.attempts[a].participants == 0
    ensures a in sh'.attempts && sh'.attempts[a].participants == 0
  {
    EveryActionIsGrouped(act);
    NobodyWaits(sh, t, pc, a);
    hide *;
    Dispatch(sh, t, pc, act);
    if act.TryRefresh? {
      TryJoinsTheLiving(sh, t, pc, act.ctxDone, sh', pc', a);
    } else if act.CancelWait? || act.ReadOutcome? {
      LeavingAnother(sh, t, pc, act, sh', pc', a);
    } else if act.Launch? {
      LaunchCounts(sh, t, pc, sh', pc', a);
    } else if act.FinishAttempt? || act.CloseComplete? {
      ClosingCounts(sh, t, pc, act, sh', pc', a);
    } else {
      OtherActions(act);
      OtherActionsLeaveAttempts(sh, t, pc, act, sh', pc');
      SameCounts(sh, sh');
    }
  }

  lemma NobodyWaits(sh: Shared, t: Thread, pc: Pc, a: nat)
    requires Local(sh, t, pc) && Global(sh) && a in sh.attempts && sh.attempts[a].participants == 0
    ensures WaitsOn(pc) != Some(a)
    ensures a < sh.nextAttempt
  {
    assert A.AttemptOk(sh, a);
  }

  lemma SameCounts(sh: Shared, sh': Shared)
    requires A.SameAttempts(sh, sh')
    ensures sh'.attempts == sh.attempts
  {}

  lemma TryJoinsTheLiving(sh: Shared, t: Thread, pc: Pc, ctxDone: bool, sh': Shared, pc': Pc, a: nat)
    requires DoJoin(sh, t, pc, TryRefresh(ctxDone)) == Some((sh', pc'))
    requires a in sh.attempts && sh.attempts[a].participants == 0 && a < sh.nextAttempt
    ensures a in sh'.attempts && sh'.attempts[a] == sh.attempts[a]
  {
    A.TryEffect(sh, t, pc, ctxDone, sh', pc');
    var s := SnapshotOf(pc).value;
    A.TryBeginCases(sh, t, s.state, s.revision, if pc.LoopTrying? then pc.claim.id else 0);
    hide DoJoin, TryBegin, Admit;
  }

  lemma LeavingAnother(sh: Shared, t: Thread, pc: Pc, act: Action, sh': Shared, pc': Pc, a: nat)
    requires (act.CancelWait? || act.ReadOutcome?) && DoJoin(sh, t, pc, act) == Some((sh', pc'))
    requires a in sh.attempts && WaitsOn(pc) != Some(a)
    ensures a in sh'.attempts && sh'.attempts[a] == sh.attempts[a]
  {
    A.LeaveCases(sh, t, pc, act, sh', pc');
    hide DoJoin;
  }

  lemma LaunchCounts(sh: Shared, t: Thread, pc: Pc, sh': Shared, pc': Pc, a: nat)
    requires DoGrant(sh, t, pc, Launch) == Some((sh', pc')) && a in sh.attempts
    ensures a in sh'.attempts && sh'.attempts[a].participants == sh.attempts[a].participants
  {}

  lemma ClosingCounts(sh: Shared, t: Thread, pc: Pc, act: Action, sh': Shared, pc': Pc, a: nat)
    requires DoClose(sh, t, pc, act) == Some((sh', pc')) && a in sh.attempts
    ensures a in sh'.attempts && sh'.attempts[a].participants == sh.attempts[a].participants
  {}

  /** The revision fence: while the revision an attempt read is current, memory holds
      exactly the state that the attempt presents to the provider, and callers only
      share an attempt of the generation they asked about. */
  lemma RevisionFence(r: Run, i: nat, a: nat)
    requires IsRun(r) && i < |r.states| && a in r.states[i].shared.attempts
    ensures
      var s := r.states[i];
      var at := s.shared.attempts[a];
      && at.revision <= s.shared.core.revision
      && at.snapshot.refreshToken != ""
      && (at.revision == s.shared.core.revision ==> at.snapshot == s.shared.core.state)
      && forall t :: t in at.joined ==>
           SnapshotOf(PcOf(s, t)) == Some(Snapshot(at.snapshot, at.revision))
  {
    hide A.RunFits, Initial;
    RunInv(r, i);
    var s := r.states[i];
    assert A.AttemptOk(s.shared, a);
    forall t | t in s.shared.attempts[a].joined
      ensures SnapshotOf(PcOf(s, t)) == Some(Snapshot(s.shared.attempts[a].snapshot, s.shared.attempts[a].revision))
    {
      assert Local(s.shared, t, PcOf(s, t));
    }
  }

  // ----- claims -----------------------------------------------------------------

  ghost predicate HoldsRefresh(s: System, t: Thread) {
    && RefreshClaimOf(PcOf(s, t)).Some?
    && HoldsRefreshClaim(s.shared.core, RefreshClaimOf(PcOf(s, t)).value)
  }

  ghost predicate HoldsRetry(s: System, t: Thread) {
    && RetryClaimOf(PcOf(s, t)).Some?
    && HoldsRetryClaim(s.shared.core, RetryClaimOf(PcOf(s, t)).value.revision,
                       RetryClaimOf(PcOf(s, t)).value.id)
  }

  /** The holder of a claim, recorded in the ghost state, holds a matching action. */
  lemma HoldersMatch(s: System, t: Thread)
    requires Inv(s)
    ensures HoldsRefresh(s, t) <==> s.shared.ghosts.refreshHolder == Some(t)
    ensures HoldsRetry(s, t) <==> s.shared.ghosts.retryHolder == Some(t)
  {
    hide A.AttemptsOk, A.AttemptFits;
    assert Local(s.shared, t, PcOf(s, t));
  }

  /** A claim is out exactly while one runner holds the action it was given; never
      two, whatever is stopped, replaced or stuck. */
  lemma ClaimsAreExclusive(r: Run, i: nat)
    requires IsRun(r) && i < |r.states|
    ensures
      var s := r.states[i];
      && (s.shared.core.schedule.valid && s.shared.core.schedule.claimID != 0 <==>
            exists t :: HoldsRefresh(s, t))
      && (forall t, u :: HoldsRefresh(s, t) && HoldsRefresh(s, u) ==> t == u)
      && (s.shared.core.retry.valid && s.shared.core.retry.claimID != 0 <==>
            exists t :: HoldsRetry(s, t))
      && (forall t, u :: HoldsRetry(s, t) && HoldsRetry(s, u) ==> t == u)
  {
    hide HoldsRefresh, HoldsRetry, A.AttemptsOk, Local, Initial;
    RunInv(r, i);
    var s := r.states[i];
    forall t
      ensures HoldsRefresh(s, t) <==> s.shared.ghosts.refreshHolder == Some(t)
      ensures HoldsRetry(s, t) <==> s.shared.ghosts.retryHolder == Some(t)
    {
      HoldersMatch(s, t);
    }
    if s.shared.ghosts.refreshHolder.Some? {
      assert HoldsRefresh(s, s.shared.ghosts.refreshHolder.value);
    }
    if s.shared.ghosts.retryHolder.Some? {
      assert HoldsRetry(s, s.shared.ghosts.retryHolder.value);
    }
  }

  /** A claim leaves its holder in two ways: the holder releases it, or the generation
      it belongs to is replaced. */
  lemma ClaimsDoNotLeak(r: Run, i: nat, t: Thread)
    requires IsRun(r) && i < |r.labels|
    requires HoldsRefresh(r.states[i], t) && !HoldsRefresh(r.states[i + 1], t)
    ensures
      || r.states[i + 1].shared.core.revision > r.states[i].shared.core.revision
      || (r.labels[i].thread == t && r.labels[i].action.FinishLoopAttempt?)
  {
    hide Do, Inv, HoldsRefresh, HoldsRetry, Initial;
    RunInv(r, i);
    RunInv(r, i + 1);
    assert IsStep(r, i);
    var s, s', act := r.states[i], r.states[i + 1], r.labels[i].action;
    HoldersMatch(s, t);
    HoldersMatch(s', t);
    SystemStepKeeps(s, r.labels[i].thread, act, s');
    if r.labels[i].thread != t {
      RelyMeans(t, s.shared, s'.shared);
    } else {
      KeepsClaim(s.shared, t, PcOf(s, t), act, s'.shared, PcOf(s', t));
    }
  }

  lemma RelyMeans(t: Thread, sh: Shared, sh': Shared)
    requires Rely(t, sh, sh')
    ensures sh.core.revision <= sh'.core.revision
    ensures sh'.ghosts.refreshHolder == Some(t) <==>
              sh.ghosts.refreshHolder == Some(t) && sh'.core.revision == sh.core.revision
  {}

  /** Only installing a generation or releasing the claim clears the holder. */
  lemma KeepsClaim(sh: Shared, t: Thread, pc: Pc, act: Action, sh': Shared, pc': Pc)
    requires Do(sh, t, pc, act) == Some((sh', pc'))
    requires sh.ghosts.refreshHolder == Some(t) && sh'.ghosts.refreshHolder != Some(t)
    ensures sh'.core.revision > sh.core.revision || act.FinishLoopAttempt?
  {
    StepEvent(sh, t, pc, act, sh', pc') by { hide *; }
    hide DoLogin, DoLogout, DoCommit, DoRestore, DoToken, DoJoin, DoGrant, DoRefusal, DoClose,
         DoPersist, DoInit, NextRefresh, Apply, EffectOf, Arrives;
  }

  /** A persistence claim leaves its holder when the holder releases it, when the
      generation is replaced, or when Logout drops the dirty mark. */
  lemma RetryClaimsDoNotLeak(r: Run, i: nat, t: Thread)
    requires IsRun(r) && i < |r.labels|
    requires HoldsRetry(r.states[i], t) && !HoldsRetry(r.states[i + 1], t)
    ensures
      || r.states[i + 1].shared.core.revision > r.states[i].shared.core.revision
      || r.labels[i].action.ClearState?
      || (r.labels[i].thread == t
          && (r.labels[i].action.LockForRetry? || r.labels[i].action.FinishRetrySave?))
  {
    hide Do, Inv, HoldsRefresh, HoldsRetry, Initial;
    RunInv(r, i);
    RunInv(r, i + 1);
    assert IsStep(r, i);
    var s, s', u, act := r.states[i], r.states[i + 1], r.labels[i].thread, r.labels[i].action;
    HoldersMatch(s, t);
    HoldersMatch(s', t);
    HoldersMatch(s, u);
    CommitPart(s, u);
    StepEvent(s.shared, u, PcOf(s, u), act, s'.shared, PcOf(s', u));
    if act.NextPersistAction? {
      DecisionKeepsHolder(s.shared, u, PcOf(s, u), act.now, s'.shared, PcOf(s', u));
    }
    if (act.LockForRetry? || act.FinishRetrySave?) && u != t {
      NotMyRelease(s, u, act, s');
    }
  }

  lemma CommitPart(s: System, u: Thread)
    requires Inv(s)
    ensures G.CommitFits(s.shared, PcOf(s, u)) && G.Claims(s.shared)
  {
    assert Local(s.shared, u, PcOf(s, u));
  }

  /** No claim is given out while one is held. */
  lemma DecisionKeepsHolder(sh: Shared, u: Thread, pc: Pc, now: Time, sh': Shared, pc': Pc)
    requires G.Claims(sh) && sh.ghosts.retryHolder.Some?
    requires Do(sh, u, pc, NextPersistAction(now)) == Some((sh', pc'))
    ensures sh'.ghosts.retryHolder == sh.ghosts.retryHolder
  {
    hide DoLogin, DoLogout, DoCommit, DoRestore, DoToken, DoJoin, DoGrant, DoRefusal, DoClose,
         DoLoop, DoInit;
  }

  /** A runner that does not hold the claim does not release it. */
  lemma NotMyRelease(s: System, u: Thread, act: Action, s': System)
    requires Inv(s) && StepTo(s, u, act) == Some(s') && !HoldsRetry(s, u)
    requires act.LockForRetry? || act.FinishRetrySave?
    ensures s'.shared.ghosts.retryHolder == s.shared.ghosts.retryHolder
  {
    EveryActionIsGrouped(act);
    Dispatch(s.shared, u, PcOf(s, u), act) by { hide *; }
    hide NextPersistence, FinishRetry, Inv, Do, GroupOf;
  }

  /** An action whose claim was voided changes nothing and calls no Save: the runner
      goes back to ask for its next action. */
  lemma VoidedActionIsInert(r: Run, i: nat)
    requires IsRun(r) && i < |r.labels|
    ensures
      var s, s', t, act := r.states[i], r.states[i + 1], r.labels[i].thread, r.labels[i].action;
      && (act.FinishLoopAttempt? && !HoldsRefresh(s, t) ==> s'.shared == s.shared)
      && (act.LockForRetry? && !HoldsRetry(s, t) ==>
            s'.shared == s.shared && PcOf(s', t) == PersistTop)
      && (act.RetrySaveReturns? || act.FinishRetrySave? ==> HoldsRetry(s, t))
  {
    hide Do, Initial, Inv, Commits.CommitsHold, HoldsRefreshClaim, HoldsRetryClaim;
    assert IsStep(r, i);
    var s, s', t, act := r.states[i], r.states[i + 1], r.labels[i].thread, r.labels[i].action;
    VoidedSteps(s.shared, t, PcOf(s, t), act, s'.shared, PcOf(s', t));
    if act.RetrySaveReturns? || act.FinishRetrySave? {
      Commits.RunCommits(r, i);
      SaversHoldRetry(s, t);
    }
  }

  /** Whoever is saving for a retry, or about to record its result, holds the claim. */
  lemma SaversHoldRetry(s: System, t: Thread)
    requires Commits.CommitsHold(s) && (PcOf(s, t).PersistSaving? || PcOf(s, t).PersistUpdating?)
    ensures HoldsRetry(s, t)
  {
    assert Commits.CommitFits(s.shared, t, PcOf(s, t));
    hide Inv, Commits.CommitInv, Commits.OpFits, HoldsRetryClaim;
  }

  lemma VoidedRelease(sh: Shared, t: Thread, pc: Pc, act: Action, sh': Shared, pc': Pc)
    requires act.FinishLoopAttempt? && DoLoop(sh, t, pc, act) == Some((sh', pc'))
    ensures RefreshClaimOf(pc).Some?
    ensures !HoldsRefreshClaim(sh.core, RefreshClaimOf(pc).value) ==> sh' == sh
  {}

  lemma VoidedRetry(sh: Shared, t: Thread, pc: Pc, act: Action, sh': Shared, pc': Pc)
    requires act.LockForRetry? || act.RetrySaveReturns? || act.FinishRetrySave?
    requires DoPersist(sh, t, pc, act) == Some((sh', pc'))
    ensures act.LockForRetry? ==>
              && RetryClaimOf(pc).Some?
              && (!HoldsRetryClaim(sh.core, RetryClaimOf(pc).value.revision, RetryClaimOf(pc).value.id)
                  ==> sh' == sh && pc' == PersistTop)
    ensures act.RetrySaveReturns? ==> pc.PersistSaving?
    ensures act.FinishRetrySave? ==> pc.PersistUpdating?
  {}

  lemma VoidedSteps(sh: Shared, t: Thread, pc: Pc, act: Action, sh': Shared, pc': Pc)
    requires Do(sh, t, pc, act) == Some((sh', pc'))
    ensures act.FinishLoopAttempt? ==>
              && RefreshClaimOf(pc).Some?
              && (!HoldsRefreshClaim(sh.core, RefreshClaimOf(pc).value) ==> sh' == sh)
    ensures act.LockForRetry? ==>
              && RetryClaimOf(pc).Some?
              && (!HoldsRetryClaim(sh.core, RetryClaimOf(pc).value.revision, RetryClaimOf(pc).value.id)
                  ==> sh' == sh && pc' == PersistTop)
    ensures act.RetrySaveReturns? ==> pc.PersistSaving?
    ensures act.FinishRetrySave? ==> pc.PersistUpdating?
  {
    EveryActionIsGrouped(act);
    hide *;
    Dispatch(sh, t, pc, act);
    if act.FinishLoopAttempt? {
      VoidedRelease(sh, t, pc, act, sh', pc');
    } else if act.LockForRetry? || act.RetrySaveReturns? || act.FinishRetrySave? {
      VoidedRetry(sh, t, pc, act, sh', pc');
    }
  }
}
