/**
 Main results about background work, for every run: how many refresh attempts a
 generation can get, when they may start, and how far apart retries are.
*/
module ScheduleTheorems {
  import opened Base
  import opened Basics
  import opened ClientCore
  import opened CoreEvents
  import opened Errors
  import opened Places
  import opened Protocol
  import opened Scheduling
  import opened SessionTheorems
  import opened StageTimes
  import opened Tokens
  import Commits
  import G = Generations
  import ParkingTheorems
  import Retries

  // ----- the budget of a generation ---------------------------------------------

  /** Step `k` starts (or joins) an attempt for a supervisor. */
  ghost predicate IsBackgroundStart(r: Run, k: nat)
    requires IsRun(r) && k < |r.labels|
  {
    r.labels[k].action.TryRefresh? && PcOf(r.states[k + 1], r.labels[k].thread).LoopJoined?
  }

  /** The background starts of a revision before state `i`, by any supervisor. */
  ghost function BackgroundStarts(r: Run, i: nat, revision: nat): nat
    requires IsRun(r) && i < |r.states|
  {
    if i == 0 then 0
    else
      BackgroundStarts(r, i - 1, revision)
      + (if IsBackgroundStart(r, i - 1) && At(r, i - 1).core.revision == revision then 1 else 0)
  }

  function Budget(state: TokenState): nat {
    if Lifetime(state) == 0 then 0 else FloorLog2(Lifetime(state))
  }

  lemma CountStep(sh: Shared, t: Thread, pc: Pc, act: Action, sh': Shared, pc': Pc)
    requires Global(sh) && Local(sh, t, pc) && StartsOk(sh) && StageFits(sh, t, pc)
    requires Do(sh, t, pc, act) == Some((sh', pc'))
    ensures sh'.core.revision == sh.core.revision ==>
              sh'.ghosts.startCount
              == sh.ghosts.startCount + (if act.TryRefresh? && pc'.LoopJoined? then 1 else 0)
    ensures sh'.core.revision != sh.core.revision ==>
              && sh'.core.revision == sh.core.revision + 1
              && sh'.ghosts.startCount == 0
              && !act.TryRefresh?
    ensures sh.ghosts.history <= sh'.ghosts.history
  {
    StepEvent(sh, t, pc, act, sh', pc') by { hide *; }
    StepKeeps(sh, t, pc, act, sh', pc') by { hide *; }
    HistoryKept(sh, t, sh');
    ClaimParts(sh, t, pc);
    if act.TryRefresh? {
      JoinCounts(sh, t, pc, act.ctxDone, sh', pc') by { hide *; }
    }
    hide Do, Apply, EffectOf, Arrives, Global, Local, StartsOk, StageFits, Rely;
  }

  lemma HistoryKept(sh: Shared, t: Thread, sh': Shared)
    requires forall u :: u != t ==> Rely(u, sh, sh')
    ensures sh.ghosts.history <= sh'.ghosts.history
  {
    var u := if t.Caller? then Goroutine(0) else Caller(0);
    assert Rely(u, sh, sh');
  }

  lemma ClaimParts(sh: Shared, t: Thread, pc: Pc)
    requires Global(sh) && Local(sh, t, pc)
    ensures G.Keyed(sh) && G.Claims(sh) && G.RefreshClaimFits(sh, t, pc)
  {}

  lemma JoinCounts(sh: Shared, t: Thread, pc: Pc, ctxDone: bool, sh': Shared, pc': Pc)
    requires G.Keyed(sh) && G.Claims(sh) && StartsOk(sh) && StageFits(sh, t, pc)
    requires G.RefreshClaimFits(sh, t, pc)
    requires Do(sh, t, pc, TryRefresh(ctxDone)) == Some((sh', pc'))
    ensures sh'.ghosts.startCount == sh.ghosts.startCount + (if pc'.LoopJoined? then 1 else 0)
    ensures sh'.core == sh.core
  {
    EveryActionIsGrouped(TryRefresh(ctxDone));
    hide *;
    Dispatch(sh, t, pc, TryRefresh(ctxDone));
    StartKeepsStarts(sh, t, pc, ctxDone, sh', pc');
    G.JoinEffect(sh, t, pc, TryRefresh(ctxDone), sh', pc');
  }

  lemma StepCounts(r: Run, i: nat)
    requires IsRun(r) && i < |r.labels|
    ensures
      var sh, sh' := At(r, i), At(r, i + 1);
      && (sh'.core.revision == sh.core.revision ==>
            sh'.ghosts.startCount
            == sh.ghosts.startCount + (if IsBackgroundStart(r, i) then 1 else 0))
      && (sh'.core.revision != sh.core.revision ==>
            && sh'.core.revision == sh.core.revision + 1
            && sh'.ghosts.startCount == 0
            && !IsBackgroundStart(r, i))
      && sh.ghosts.history <= sh'.ghosts.history
  {
    hide Do, Global, Local, StartsOk, StageFits, Initial;
    RunStages(r, i);
    assert IsStep(r, i);
    var t := r.labels[i].thread;
    CountStep(At(r, i), t, PcOf(r.states[i], t), r.labels[i].action, At(r, i + 1),
              PcOf(r.states[i + 1], t));
  }

  /** The recorded count of the current revision is its number of starts in the run. */
  lemma {:induction false} CountsMatch(r: Run, i: nat, revision: nat)
    requires IsRun(r) && i < |r.states| && revision >= At(r, i).core.revision
    ensures BackgroundStarts(r, i, revision)
            == if revision == At(r, i).core.revision then At(r, i).ghosts.startCount else 0
  {
    if i > 0 {
      hide IsRun, IsBackgroundStart;
      StepCounts(r, i - 1);
      CountsMatch(r, i - 1, revision);
    }
  }

  lemma StartsFitBudget(sh: Shared)
    requires StartsOk(sh)
    ensures sh.ghosts.startCount <= Budget(sh.core.state)
  {
    if sh.core.schedule.valid {
      forall n | n in sh.ghosts.starts ensures 1 <= n <= Budget(sh.core.state) {
        StageExistsIff(sh.core.state, n);
      }
      BoundedSetSize(sh.ghosts.starts, Budget(sh.core.state));
    }
  }

  /** Every generation of every run gets at most floor(log2(lifetime)) background
      attempts, whatever supervisors are started, stopped or replaced. */
  lemma {:induction false} BackgroundBudget(r: Run, i: nat, revision: nat)
    requires IsRun(r) && i < |r.states| && revision < |At(r, i).ghosts.history|
    ensures BackgroundStarts(r, i, revision) <= Budget(At(r, i).ghosts.history[revision])
  {
    RunStages(r, i);
    HistoryEnds(r.states[i]);
    hide IsRun, IsBackgroundStart, StartsOk, StageFits, Inv, Budget;
    if revision == At(r, i).core.revision {
      CountsMatch(r, i, revision);
      StartsFitBudget(At(r, i));
    } else {
      AtStart(r, i);
      StepCounts(r, i - 1);
      RunStages(r, i - 1);
      HistoryEnds(r.states[i - 1]);
      BackgroundBudget(r, i - 1, revision);
    }
  }

  lemma AtStart(r: Run, i: nat)
    requires IsRun(r) && i < |r.states|
    ensures i == 0 ==> At(r, i).core.revision == 0 && |At(r, i).ghosts.history| == 1
  {}

  lemma HistoryEnds(s: System)
    requires Inv(s)
    ensures |s.shared.ghosts.history| == s.shared.core.revision + 1
    ensures s.shared.ghosts.history[s.shared.core.revision] == s.shared.core.state
  {}

  // ----- when an attempt may be claimed and started -----------------------------

  /** A supervisor is given a claim only from the midpoint of the token's lifetime on,
      before its expiry, for a stage later than all started ones, and not within ten
      seconds of the last completion. */
  lemma ClaimsAreTimely(r: Run, i: nat)
    requires IsRun(r) && i < |r.labels| && r.labels[i].action.NextLoopAction?
    requires PcOf(r.states[i + 1], r.labels[i].thread).LoopTrying?
    ensures
      var sh, now := At(r, i), r.labels[i].action.now;
      var claim := PcOf(r.states[i + 1], r.labels[i].thread).claim;
      && claim.state == sh.core.state && claim.revision == sh.core.revision
      && sh.core.state.lastAuthAt + sh.core.state.expiresAt <= 2 * now
      && now < sh.core.state.expiresAt
      && 1 <= claim.stage <= Budget(sh.core.state)
      && claim.stage !in sh.ghosts.starts
      && (sh.ghosts.lastCompletion.Some? ==>
            sh.ghosts.lastCompletion.value + MIN_REFRESH_INTERVAL <= now)
  {
    hide Global, Local, Initial;
    RunStages(r, i);
    ParkingTheorems.KeyedSchedule(r.states[i]);
    assert IsStep(r, i);
    var t := r.labels[i].thread;
    DecidesTimely(At(r, i), t, PcOf(r.states[i], t), r.labels[i].action.now, At(r, i + 1),
                  PcOf(r.states[i + 1], t));
  }

  lemma DecidesTimely(sh: Shared, t: Thread, pc: Pc, now: Time, sh': Shared, pc': Pc)
    requires StartsOk(sh) && (sh.core.schedule.valid ==> sh.core.schedule.revision == sh.core.revision)
    requires Do(sh, t, pc, NextLoopAction(now)) == Some((sh', pc')) && pc'.LoopTrying?
    ensures
      var claim := pc'.claim;
      && claim.state == sh.core.state && claim.revision == sh.core.revision
      && sh.core.state.lastAuthAt + sh.core.state.expiresAt <= 2 * now
      && now < sh.core.state.expiresAt
      && 1 <= claim.stage <= Budget(sh.core.state)
      && claim.stage !in sh.ghosts.starts
      && (sh.ghosts.lastCompletion.Some? ==>
            sh.ghosts.lastCompletion.value + MIN_REFRESH_INTERVAL <= now)
  {
    hide DoLogin, DoLogout, DoCommit, DoRestore, DoToken, DoJoin, DoGrant, DoRefusal, DoClose,
         DoPersist, DoInit, StageTime, Budget;
    var stage := CurrentSchedule(sh.core).nextStage;
    if StageTime(sh.core.state, stage).Some? {
      StageWithinBudget(sh.core.state, stage);
    }
  }

  lemma StageWithinBudget(state: TokenState, stage: nat)
    requires StageTime(state, stage).Some?
    ensures 1 <= stage <= Budget(state)
    ensures state.lastAuthAt + state.expiresAt <= 2 * StageTime(state, stage).value
  {
    StageExistsIff(state, stage);
    MidpointBound(state, stage);
  }

  /** No background attempt starts at or after the expiry of the generation it
      refreshes, and each one presents the claim that is current. */
  lemma StartsBeforeExpiry(r: Run, i: nat)
    requires IsRun(r) && i < |r.labels| && IsBackgroundStart(r, i)
    ensures At(r, i).clock < At(r, i).core.state.expiresAt
    ensures At(r, i).ghosts.refreshHolder == Some(r.labels[i].thread)
  {
    hide Initial;
    RunInv(r, i);
    assert IsStep(r, i);
    var t := r.labels[i].thread;
    assert Local(At(r, i), t, PcOf(r.states[i], t));
    StartsInTime(At(r, i), t, PcOf(r.states[i], t), r.labels[i].action.ctxDone, At(r, i + 1),
                 PcOf(r.states[i + 1], t));
  }

  lemma StartsInTime(sh: Shared, t: Thread, pc: Pc, ctxDone: bool, sh': Shared, pc': Pc)
    requires G.RefreshClaimFits(sh, t, pc)
    requires Do(sh, t, pc, TryRefresh(ctxDone)) == Some((sh', pc')) && pc'.LoopJoined?
    ensures sh.clock < sh.core.state.expiresAt && sh.ghosts.refreshHolder == Some(t)
  {
    hide DoLogin, DoLogout, DoCommit, DoRestore, DoToken, DoLoop, DoGrant, DoRefusal, DoClose,
         DoPersist, DoInit;
    assert pc.LoopTrying?;
    TryTouches(sh, t, pc.claim.state, pc.claim.revision, pc.claim.id);
    PresentsClaim(sh, t, pc, pc.claim);
    hide TryBegin;
  }

  /** Step `k` completes a stage: the supervisor's claim is released after an attempt
      that used it up. */
  ghost predicate CompletesStage(r: Run, k: nat)
    requires IsRun(r) && k < |r.labels|
  {
    var pc := ActorPc(r, k);
    && r.labels[k].action.FinishLoopAttempt?
    && pc.LoopDone?
    && HoldsRefreshClaim(At(r, k).core, pc.claim)
    && (pc.result.Temporary? || pc.result.CanceledAfterStart? || pc.result.Succeeded?)
  }

  /** Within one generation, a claim follows the previous completion by at least ten
      seconds. */
  lemma AttemptsAreSpaced(r: Run, k: nat, i: nat)
    requires IsRun(r) && k < i < |r.labels| && CompletesStage(r, k)
    requires forall m :: k < m < i ==> !CompletesStage(r, m)
    requires At(r, i).core.revision == At(r, k).core.revision
    requires r.labels[i].action.NextLoopAction?
    requires PcOf(r.states[i + 1], r.labels[i].thread).LoopTrying?
    ensures r.labels[k].action.now + MIN_REFRESH_INTERVAL <= r.labels[i].action.now
  {
    hide CompletesStage, Initial, IsStep;
    ClaimsAreTimely(r, i);
    LastCompletionStands(r, k, i);
  }

  lemma {:induction false} LastCompletionStands(r: Run, k: nat, i: nat)
    requires IsRun(r) && k < i < |r.states| && CompletesStage(r, k)
    requires forall m :: k < m < i ==> !CompletesStage(r, m)
    requires At(r, i).core.revision == At(r, k).core.revision
    ensures At(r, i).ghosts.lastCompletion == Some(r.labels[k].action.now)
    decreases i
  {
    hide Do, Initial;
    ParkingTheorems.RevisionsGrow(r, k, i - 1);
    ParkingTheorems.RevisionsGrow(r, i - 1, i);
    assert IsStep(r, i - 1);
    var t := r.labels[i - 1].thread;
    CompletionStep(At(r, i - 1), t, PcOf(r.states[i - 1], t), r.labels[i - 1].action, At(r, i),
                   PcOf(r.states[i], t));
    if k < i - 1 {
      assert !CompletesStage(r, i - 1);
      LastCompletionStands(r, k, i - 1);
    }
  }

  lemma CompletionStep(sh: Shared, t: Thread, pc: Pc, act: Action, sh': Shared, pc': Pc)
    requires Do(sh, t, pc, act) == Some((sh', pc')) && sh'.core.revision == sh.core.revision
    ensures sh'.ghosts.lastCompletion ==
              if && act.FinishLoopAttempt? && pc.LoopDone?
                 && HoldsRefreshClaim(sh.core, pc.claim)
                 && (pc.result.Temporary? || pc.result.CanceledAfterStart? || pc.result.Succeeded?)
              then Some(act.now) else sh.ghosts.lastCompletion
  {
    StepEvent(sh, t, pc, act, sh', pc') by { hide *; }
    hide DoLogin, DoLogout, DoCommit, DoRestore, DoToken, DoJoin, DoGrant, DoRefusal, DoClose,
         DoPersist, DoInit, Apply, EffectOf, Arrives, NextRefresh, FinishClaim;
  }

  // ----- persistence retries ----------------------------------------------------

  /** Step `k` learns that a Save failed, and the current revision stays dirty. */
  ghost predicate SaveFails(r: Run, k: nat)
    requires IsRun(r) && k < |r.labels|
  {
    && (r.labels[k].action.RecordSaveResult? || r.labels[k].action.FinishRetrySave?)
    && At(r, k + 1).core.retry.valid
  }

  function ReadingOf(act: Action): Time
    requires act.RecordSaveResult? || act.FinishRetrySave?
  {
    match act
    case RecordSaveResult(now) => now
    case FinishRetrySave(now) => now
  }

  /** The first failure of a generation counts one, each later one counts one more. */
  lemma FailuresAreCounted(r: Run, k: nat)
    requires IsRun(r) && k < |r.labels| && SaveFails(r, k)
    ensures At(r, k + 1).core.retry.failures ==
              if r.labels[k].action.RecordSaveResult? then 1
              else At(r, k).core.retry.failures + 1
    ensures At(r, k + 1).ghosts.lastSaveFailure == ReadingOf(r.labels[k].action)
    ensures At(r, k + 1).core.retry.revision == At(r, k).core.revision
  {
    hide Initial;
    Commits.RunCommits(r, k);
    assert IsStep(r, k);
    var t := r.labels[k].thread;
    assert Local(At(r, k), t, ActorPc(r, k)) && Commits.CommitFits(At(r, k), t, ActorPc(r, k));
    FailureStep(At(r, k), t, ActorPc(r, k), r.labels[k].action, At(r, k + 1),
                PcOf(r.states[k + 1], t));
  }

  lemma FailureStep(sh: Shared, t: Thread, pc: Pc, act: Action, sh': Shared, pc': Pc)
    requires G.CommitFits(sh, pc) && Commits.StoreFits(sh, pc)
    requires Do(sh, t, pc, act) == Some((sh', pc')) && sh'.core.retry.valid
    requires act.RecordSaveResult? || act.FinishRetrySave?
    ensures sh'.core.retry.failures ==
              if act.RecordSaveResult? then 1 else sh.core.retry.failures + 1
    ensures sh'.ghosts.lastSaveFailure == ReadingOf(act)
    ensures sh'.core.retry.revision == sh.core.revision
  {
    hide DoLogin, DoLogout, DoRestore, DoToken, DoJoin, DoGrant, DoRefusal, DoClose, DoLoop,
         DoInit, NextPersistence;
  }

  /** After the n-th consecutive failure, the next Save is claimed no sooner than
      min(2^(n-1), 60) seconds after its completion. */
  lemma RetriesAreSpaced(r: Run, k: nat, i: nat)
    requires IsRun(r) && k < i < |r.labels| && SaveFails(r, k)
    requires forall m :: k < m < i ==>
               !r.labels[m].action.RecordSaveResult? && !r.labels[m].action.FinishRetrySave?
    requires r.labels[i].action.NextPersistAction?
    requires PcOf(r.states[i + 1], r.labels[i].thread).PersistClaimed?
    ensures r.labels[i].action.now
            >= ReadingOf(r.labels[k].action) + RetryDelay(At(r, k + 1).core.retry.failures)
  {
    hide Do, Initial, RetryDelay;
    FailuresAreCounted(r, k);
    Retries.RunRetries(r, k + 1);
    assert IsStep(r, i);
    var t := r.labels[i].thread;
    ClaimsWhenDue(At(r, i), t, PcOf(r.states[i], t), r.labels[i].action.now, At(r, i + 1),
                  PcOf(r.states[i + 1], t));
    FailureStands(r, k, i);
    Retries.RunRetries(r, i);
  }

  lemma {:induction false} FailureStands(r: Run, k: nat, i: nat)
    requires IsRun(r) && k < i < |r.states| && SaveFails(r, k)
    requires forall m :: k < m < i ==>
               !r.labels[m].action.RecordSaveResult? && !r.labels[m].action.FinishRetrySave?
    requires At(r, i).core.retry.valid
    ensures At(r, i).ghosts.lastSaveFailure == At(r, k + 1).ghosts.lastSaveFailure
    ensures At(r, i).ghosts.saveFailures == At(r, k + 1).ghosts.saveFailures
    decreases i
  {
    hide Do, Initial, SaveFails, Apply, EffectOf, Arrives;
    if k + 1 < i {
      assert IsStep(r, i - 1);
      var t := r.labels[i - 1].thread;
      var pc, act := PcOf(r.states[i - 1], t), r.labels[i - 1].action;
      StepEvent(At(r, i - 1), t, pc, act, At(r, i), PcOf(r.states[i], t));
      Retries.OtherEffects(At(r, i - 1), pc, act);
      Retries.EventSpacing(At(r, i - 1).core, EffectOf(At(r, i - 1), pc, act));
      FailureStands(r, k, i - 1);
    }
  }

  lemma ClaimsWhenDue(sh: Shared, t: Thread, pc: Pc, now: Time, sh': Shared, pc': Pc)
    requires Do(sh, t, pc, NextPersistAction(now)) == Some((sh', pc')) && pc'.PersistClaimed?
    ensures sh.core.retry.valid && sh.core.retry.retryAt <= now
  {
    hide DoLogin, DoLogout, DoCommit, DoRestore, DoToken, DoJoin, DoGrant, DoRefusal, DoClose,
         DoLoop, DoInit;
  }

  /** Retrying a Save never changes the state or its revision, starts no grant and
      reports no event. */
  lemma RetriesChangeNoState(r: Run, i: nat)
    requires IsRun(r) && i < |r.labels|
    requires
      var act := r.labels[i].action;
      || act.NextPersistAction? || act.LockForRetry?
      || act.RetrySaveReturns? || act.FinishRetrySave?
    ensures
      var sh, sh' := At(r, i), At(r, i + 1);
      && sh'.core.state == sh.core.state && sh'.core.revision == sh.core.revision
      && sh'.core.schedule == sh.core.schedule
      && sh'.attempts == sh.attempts && sh'.current == sh.current
      && sh'.nextAttempt == sh.nextAttempt
      && sh'.ghosts.log == sh.ghosts.log
      && (sh'.store == sh.store || r.labels[i].action.RetrySaveReturns?)
  {
    assert IsStep(r, i);
    var t := r.labels[i].thread;
    RetryStep(At(r, i), t, PcOf(r.states[i], t), r.labels[i].action, At(r, i + 1),
              PcOf(r.states[i + 1], t));
  }

  lemma RetryStep(sh: Shared, t: Thread, pc: Pc, act: Action, sh': Shared, pc': Pc)
    requires Do(sh, t, pc, act) == Some((sh', pc'))
    requires act.NextPersistAction? || act.LockForRetry?
             || act.RetrySaveReturns? || act.FinishRetrySave?
    ensures
      && sh'.core.state == sh.core.state && sh'.core.revision == sh.core.revision
      && sh'.core.schedule == sh.core.schedule
      && sh'.attempts == sh.attempts && sh'.current == sh.current
      && sh'.nextAttempt == sh.nextAttempt
      && sh'.ghosts.log == sh.ghosts.log
      && (sh'.store == sh.store || act.RetrySaveReturns?)
  {
    EveryActionIsGrouped(act);
    Dispatch(sh, t, pc, act) by { hide *; }
    hide Do, DoLogin, DoLogout, DoCommit, DoRestore, DoToken, DoJoin, DoGrant, DoRefusal, DoClose,
         DoLoop, DoInit, GroupOf, RetryDelay;
  }
}
