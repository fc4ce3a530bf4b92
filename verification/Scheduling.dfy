/**
 Bounds on background work: how many refresh attempts a generation can get, when they
 can start, and how far apart persistence retries are.
*/
module Scheduling {
  import opened Base
  import opened Basics
  import opened ClientCore
  import opened CoreEvents
  import opened Errors
  import opened Places
  import opened Protocol
  import opened StageTimes
  import opened Tokens
  import A = Attempts
  import G = Generations
  import L = Locks

  /** Every stage below the next one was used at most once; the next one only under
      a claim that is still out, or for the last time. */
  ghost predicate StartsOk(sh: Shared) {
    var s := sh.core.schedule;
    && sh.ghosts.startCount == |sh.ghosts.starts|
    && (!s.valid ==> sh.ghosts.starts == {} && sh.ghosts.lastCompletion == None)
    && (s.valid ==>
          && s.nextStage >= 1
          && (forall n :: n in sh.ghosts.starts ==>
                && 1 <= n <= s.nextStage
                && StageTime(sh.core.state, n).Some?
                && (n == s.nextStage ==> s.claimID != 0 || !s.disposition.Active?))
          && s.retryNotBefore == (match sh.ghosts.lastCompletion
                                  case Some(at) => at + MIN_REFRESH_INTERVAL
                                  case None => 0))
  }

  ghost predicate StageFits(sh: Shared, t: Thread, pc: Pc) {
    sh.ghosts.refreshHolder == Some(t) && RefreshClaimOf(pc).Some? ==>
      var claim := RefreshClaimOf(pc).value;
      && claim.stage == sh.core.schedule.nextStage
      && StageTime(sh.core.state, claim.stage).Some?
      && (pc.LoopTrying? || (pc.LoopDone? && pc.result.CanceledBeforeStart?) ==>
            claim.stage !in sh.ghosts.starts)
  }

  ghost predicate RelyStage(t: Thread, sh: Shared, sh': Shared) {
    sh'.ghosts.refreshHolder == Some(t) ==>
      && sh'.core.state == sh.core.state
      && sh'.core.schedule.nextStage == sh.core.schedule.nextStage
      && sh'.ghosts.starts == sh.ghosts.starts
  }

  lemma RelyKeepsStageFits(t: Thread, pc: Pc, sh: Shared, sh': Shared)
    requires StageFits(sh, t, pc) && Base.Rely(t, sh, sh') && RelyStage(t, sh, sh')
    ensures StageFits(sh', t, pc)
  {}

  // ----- what the critical sections do to stages --------------------------------

  /** The part of the schedule that counts stages. */
  lemma StageKept(c: Core, e: Event)
    requires c.schedule.valid ==> c.schedule.revision == c.revision
    requires e.ClaimFinished? ==> !HoldsRefreshClaim(c, e.claim)
    requires Apply(c, e).revision == c.revision
    ensures
      var c' := Apply(c, e);
      && c'.state == c.state
      && (c.schedule.valid ==>
            && c'.schedule.valid
            && c'.schedule.nextStage == c.schedule.nextStage
            && c'.schedule.retryNotBefore == c.schedule.retryNotBefore
            && (c.schedule.claimID != 0 || !c.schedule.disposition.Active? ==>
                  c'.schedule.claimID != 0 || !c'.schedule.disposition.Active?))
      && (!c.schedule.valid && c'.schedule.valid ==>
            c'.schedule.nextStage == 1 && c'.schedule.retryNotBefore == 0)
  {
    if e.RefreshDecided? {
      DecisionKeepsStage(c, e.now);
      hide NextRefresh;
    }
  }

  lemma DecisionKeepsStage(c: Core, now: Time)
    ensures
      var c' := NextRefresh(c, now).0;
      && c'.state == c.state && c'.revision == c.revision
      && c'.schedule.valid
      && c'.schedule.nextStage == CurrentSchedule(c).nextStage
      && c'.schedule.retryNotBefore == CurrentSchedule(c).retryNotBefore
      && (CurrentSchedule(c).claimID != 0 || !CurrentSchedule(c).disposition.Active? ==>
            c'.schedule.claimID != 0 || !c'.schedule.disposition.Active?)
  {}

  /** Sections other than the release of a claim leave the used stages behind. */
  lemma EventKeepsStarts(sh: Shared, e: Event, sh': Shared)
    requires G.Keyed(sh) && StartsOk(sh) && sh'.core == Apply(sh.core, e)
    requires e.ClaimFinished? ==> !HoldsRefreshClaim(sh.core, e.claim)
    requires sh'.core.revision == sh.core.revision
    requires sh'.ghosts.starts == sh.ghosts.starts
    requires sh'.ghosts.startCount == sh.ghosts.startCount
    requires sh'.ghosts.lastCompletion == sh.ghosts.lastCompletion
    ensures StartsOk(sh')
    ensures sh.core.schedule.valid ==> sh'.core.schedule.nextStage == sh.core.schedule.nextStage
    ensures sh'.core.state == sh.core.state
  {
    StageKept(sh.core, e);
    hide Apply, StageTime;
  }

  lemma ReleaseKeepsStarts(sh: Shared, t: Thread, pc: Pc, now: Time, sh': Shared, pc': Pc)
    requires G.Keyed(sh) && StartsOk(sh) && StageFits(sh, t, pc)
    requires pc.LoopDone? && HoldsRefreshClaim(sh.core, pc.claim)
    requires sh.ghosts.refreshHolder == Some(t)
    requires DoLoop(sh, t, pc, FinishLoopAttempt(now)) == Some((sh', pc'))
    ensures StartsOk(sh') && StageFits(sh', t, pc')
    ensures sh'.ghosts.refreshHolder == None
  {}

  lemma DecisionKeepsStarts(sh: Shared, t: Thread, pc: Pc, now: Time, sh': Shared, pc': Pc)
    requires G.Keyed(sh) && G.Claims(sh) && StartsOk(sh)
    requires G.RefreshClaimFits(sh, t, pc)
    requires DoLoop(sh, t, pc, NextLoopAction(now)) == Some((sh', pc'))
    ensures StartsOk(sh') && StageFits(sh', t, pc')
    ensures forall u :: u != t ==> RelyStage(u, sh, sh')
  {}

  lemma TryTouches(sh: Shared, t: Thread, snapshot: TokenState, revision: nat, claimID: nat)
    ensures
      var (sh', entry) := TryBegin(sh, t, snapshot, revision, claimID);
      && sh' == sh.(attempts := sh'.attempts, current := sh'.current, nextAttempt := sh'.nextAttempt)
      && (entry.Joined? ==> Admit(sh.core, snapshot, revision, claimID, sh.clock).Admitted?)
  {}

  /** An admitted background caller holds the claim it presents. */
  lemma PresentsClaim(sh: Shared, t: Thread, pc: Pc, claim: Claim)
    requires G.RefreshClaimFits(sh, t, pc) && RefreshClaimOf(pc) == Some(claim)
    ensures Admit(sh.core, claim.state, claim.revision, claim.id, sh.clock).Admitted? ==>
              sh.ghosts.refreshHolder == Some(t) && sh.core.schedule.disposition.Active?
  {}

  lemma OnlyThese(sh: Shared, t: Thread, pc: Pc, ctxDone: bool)
    ensures DoJoin(sh, t, pc, TryRefresh(ctxDone)).Some? ==> pc.TokenTrying? || pc.LoopTrying?
  {
    hide TryBegin;
  }

  lemma AskingStarts(sh: Shared, t: Thread, pc: Pc, ctxDone: bool, sh': Shared, pc': Pc)
    requires G.RefreshClaimFits(sh, t, pc) && StartsOk(sh) && pc.TokenTrying?
    requires DoJoin(sh, t, pc, TryRefresh(ctxDone)) == Some((sh', pc'))
    ensures StartsOk(sh') && StageFits(sh', t, pc')
    ensures forall u :: u != t ==> RelyStage(u, sh, sh')
    ensures sh'.ghosts.startCount == sh.ghosts.startCount && !pc'.LoopJoined?
  {
    TryTouches(sh, t, pc.snapshot, pc.revision, 0);
    hide TryBegin, Admit;
  }

  lemma LoopStarts(sh: Shared, t: Thread, pc: Pc, ctxDone: bool, sh': Shared, pc': Pc)
    requires G.Keyed(sh) && G.Claims(sh) && StartsOk(sh) && StageFits(sh, t, pc)
    requires G.RefreshClaimFits(sh, t, pc) && pc.LoopTrying?
    requires DoJoin(sh, t, pc, TryRefresh(ctxDone)) == Some((sh', pc'))
    ensures StartsOk(sh') && StageFits(sh', t, pc')
    ensures forall u :: u != t ==> RelyStage(u, sh, sh')
    ensures sh'.ghosts.startCount == sh.ghosts.startCount + (if pc'.LoopJoined? then 1 else 0)
  {
    TryTouches(sh, t, pc.claim.state, pc.claim.revision, pc.claim.id);
    PresentsClaim(sh, t, pc, pc.claim);
    hide TryBegin, Admit;
  }

  /** A background caller that joins presents the current claim. */
  lemma StartKeepsStarts(sh: Shared, t: Thread, pc: Pc, ctxDone: bool, sh': Shared, pc': Pc)
    requires G.Keyed(sh) && G.Claims(sh) && StartsOk(sh) && StageFits(sh, t, pc)
    requires G.RefreshClaimFits(sh, t, pc)
    requires DoJoin(sh, t, pc, TryRefresh(ctxDone)) == Some((sh', pc'))
    ensures StartsOk(sh') && StageFits(sh', t, pc')
    ensures forall u :: u != t ==> RelyStage(u, sh, sh')
    ensures sh'.ghosts.startCount == sh.ghosts.startCount + (if pc'.LoopJoined? then 1 else 0)
  {
    if pc.TokenTrying? {
      AskingStarts(sh, t, pc, ctxDone, sh', pc') by { hide *; }
    } else {
      LoopStarts(sh, t, pc, ctxDone, sh', pc') by { hide *; OnlyThese(sh, t, pc, ctxDone); }
    }
    hide *;
  }

  lemma LeaveKeepsStarts(sh: Shared, t: Thread, pc: Pc, act: Action, sh': Shared, pc': Pc)
    requires StageFits(sh, t, pc) && (act.CancelWait? || act.ReadOutcome?)
    requires DoJoin(sh, t, pc, act) == Some((sh', pc'))
    ensures StageFits(sh', t, pc')
  {}

  /** Any step that neither decides, starts nor releases. */
  lemma OtherKeepsStarts(sh: Shared, t: Thread, e: Event, sh': Shared)
    requires G.Shape(sh) && G.Shape(sh') && StartsOk(sh) && sh'.core == Apply(sh.core, e)
    requires e.ClaimFinished? ==> !HoldsRefreshClaim(sh.core, e.claim)
    requires sh'.core.revision == sh.core.revision
    requires sh'.ghosts.starts == sh.ghosts.starts
    requires sh'.ghosts.startCount == sh.ghosts.startCount
    requires sh'.ghosts.lastCompletion == sh.ghosts.lastCompletion
    requires forall u :: u != t ==> Base.Rely(u, sh, sh')
    ensures StartsOk(sh')
    ensures forall u :: u != t ==> RelyStage(u, sh, sh')
  {
    EventKeepsStarts(sh, e, sh');
    forall u | u != t ensures RelyStage(u, sh, sh') {
      assert Base.Rely(u, sh, sh');
    }
  }

  lemma NewGenerationStarts(sh: Shared, sh': Shared)
    requires G.Shape(sh') && !sh'.core.schedule.valid
    requires sh'.ghosts.starts == {} && sh'.ghosts.startCount == 0
    requires sh'.ghosts.lastCompletion == None
    ensures StartsOk(sh')
    ensures forall u :: RelyStage(u, sh, sh')
    ensures forall u, pc :: StageFits(sh', u, pc)
  {}

  lemma SamePlaceFits(sh: Shared, t: Thread, pc: Pc, sh': Shared)
    requires StageFits(sh, t, pc) && sh'.core == sh.core && sh'.ghosts == sh.ghosts
    ensures StageFits(sh', t, pc)
  {}

  lemma ElsewhereFits(sh: Shared, t: Thread, pc: Pc)
    requires !PartOf(pc).Claimed?
    ensures StageFits(sh, t, pc)
  {}

  lemma ArrivalsAre(act: Action)
    requires Arrives(act, Claimed)
    ensures act.NextLoopAction? || act.TryRefresh? || act.CancelWait? || act.ReadOutcome?
  {}

  lemma ClaimedIsNotIdle(pc: Pc)
    ensures PartOf(pc).Claimed? ==> !pc.Idle?
  {}

  lemma BusyStays(sh: Shared, t: Thread, pc: Pc, act: Action)
    requires !pc.Idle?
    ensures act.BeginLogout? ==> DoLogout(sh, t, pc, act).None?
    ensures act.BeginRestore? ==> DoRestore(sh, t, pc, act).None?
  {}

  lemma OnlyTicks(act: Action)
    requires Stays(act) && !act.TryRefresh? && !act.BeginLogout? && !act.BeginRestore?
    ensures act.Tick?
  {}

  /** A thread that stays at a claim while nothing starts has seen time pass or has
      been told to try again. */
  lemma Stayed(sh: Shared, t: Thread, pc: Pc, act: Action, sh': Shared)
    requires Do(sh, t, pc, act) == Some((sh', pc)) && PartOf(pc).Claimed? && !act.TryRefresh?
    ensures sh'.core == sh.core && sh'.ghosts == sh.ghosts
  {
    EveryActionIsGrouped(act);
    StepEvent(sh, t, pc, act, sh', pc) by { hide *; }
    ClaimedIsNotIdle(pc) by { hide *; }
    hide *;
    Dispatch(sh, t, pc, act);
    if act.BeginLogout? || act.BeginRestore? {
      BusyStays(sh, t, pc, act);
    } else if !act.Tick? {
      OnlyTicks(act);
    }
  }

  lemma ActorStageFits(sh: Shared, t: Thread, pc: Pc, act: Action, sh': Shared, pc': Pc)
    requires StageFits(sh, t, pc) && Do(sh, t, pc, act) == Some((sh', pc'))
    requires !act.NextLoopAction? && !act.TryRefresh?
    ensures StageFits(sh', t, pc')
  {
    EveryActionIsGrouped(act);
    StepEvent(sh, t, pc, act, sh', pc') by { hide *; }
    hide *;
    Dispatch(sh, t, pc, act);
    if PartOf(pc').Claimed? {
      if pc' == pc {
        Stayed(sh, t, pc, act, sh');
        SamePlaceFits(sh, t, pc, sh');
      } else {
        ArrivalsAre(act);
        match act
        case CancelWait(_) | ReadOutcome(_) => LeaveKeepsStarts(sh, t, pc, act, sh', pc');
      }
    } else {
      ElsewhereFits(sh', t, pc');
    }
  }

  lemma StepKeepsStarts(sh: Shared, t: Thread, pc: Pc, act: Action, sh': Shared, pc': Pc)
    requires Global(sh) && Local(sh, t, pc) && StartsOk(sh) && StageFits(sh, t, pc)
    requires Do(sh, t, pc, act) == Some((sh', pc'))
    ensures StagesKept(sh, t, sh', pc')
  {
    hide *;
    StepKeeps(sh, t, pc, act, sh', pc');
    StepEvent(sh, t, pc, act, sh', pc');
    ShapeOf(sh);
    ShapeOf(sh');
    if sh'.core.revision != sh.core.revision {
      AdvancedStarts(sh, t, act, sh', pc');
    } else if act.TryRefresh? {
      TriedStarts(sh, t, pc, act, sh', pc');
    } else if act.NextLoopAction? {
      DecidedStarts(sh, t, pc, act, sh', pc');
    } else {
      QuietKeepsStarts(sh, t, pc, act, sh', pc');
    }
  }

  ghost predicate StagesKept(sh: Shared, t: Thread, sh': Shared, pc': Pc) {
    && StartsOk(sh') && StageFits(sh', t, pc')
    && forall u :: u != t ==> RelyStage(u, sh, sh')
  }

  lemma TriedStarts(sh: Shared, t: Thread, pc: Pc, act: Action, sh': Shared, pc': Pc)
    requires Local(sh, t, pc) && G.Keyed(sh) && G.Claims(sh) && StartsOk(sh) && StageFits(sh, t, pc)
    requires act.TryRefresh? && Do(sh, t, pc, act) == Some((sh', pc'))
    ensures StagesKept(sh, t, sh', pc')
  {
    EveryActionIsGrouped(act);
    Dispatch(sh, t, pc, act) by { hide *; }
    ClaimOf(sh, t, pc) by { hide *; }
    StartKeepsStarts(sh, t, pc, act.ctxDone, sh', pc') by { hide *; }
    hide Do, DoJoin, Local, StartsOk, StageFits, RelyStage, G.Keyed, G.Claims;
  }

  lemma DecidedStarts(sh: Shared, t: Thread, pc: Pc, act: Action, sh': Shared, pc': Pc)
    requires Local(sh, t, pc) && G.Keyed(sh) && G.Claims(sh) && StartsOk(sh)
    requires act.NextLoopAction? && Do(sh, t, pc, act) == Some((sh', pc'))
    ensures StagesKept(sh, t, sh', pc')
  {
    EveryActionIsGrouped(act);
    Dispatch(sh, t, pc, act) by { hide *; }
    ClaimOf(sh, t, pc) by { hide *; }
    DecisionKeepsStarts(sh, t, pc, act.now, sh', pc') by { hide *; }
    hide Do, DoLoop, Local, StartsOk, StageFits, RelyStage, G.Keyed, G.Claims;
  }

  lemma ShapeOf(sh: Shared)
    requires Global(sh)
    ensures G.Shape(sh) && G.Keyed(sh) && G.Claims(sh)
  {}

  lemma ClaimOf(sh: Shared, t: Thread, pc: Pc)
    requires Local(sh, t, pc)
    ensures G.RefreshClaimFits(sh, t, pc)
  {}

  lemma AdvancedStarts(sh: Shared, t: Thread, act: Action, sh': Shared, pc': Pc)
    requires G.Shape(sh') && Untouched(sh, act, sh') && sh'.core.revision != sh.core.revision
    ensures StagesKept(sh, t, sh', pc')
  {
    NewGenerationStarts(sh, sh');
    hide StartsOk, RelyStage, StageFits;
  }

  /** A step that neither decides nor starts. */
  lemma QuietKeepsStarts(sh: Shared, t: Thread, pc: Pc, act: Action, sh': Shared, pc': Pc)
    requires G.Shape(sh) && G.Shape(sh') && G.Keyed(sh) && Local(sh, t, pc)
    requires StartsOk(sh) && StageFits(sh, t, pc)
    requires Do(sh, t, pc, act) == Some((sh', pc')) && Untouched(sh, act, sh')
    requires sh'.core == Apply(sh.core, EffectOf(sh, pc, act))
    requires sh'.core.revision == sh.core.revision
    requires !act.TryRefresh? && !act.NextLoopAction?
    requires forall u :: u != t ==> Base.Rely(u, sh, sh')
    ensures StagesKept(sh, t, sh', pc')
  {
    EveryActionIsGrouped(act);
    ClaimOf(sh, t, pc);
    Dispatch(sh, t, pc, act);
    hide Do, DoLogin, DoLogout, DoCommit, DoRestore, DoToken, DoJoin, DoGrant, DoRefusal, DoClose,
         DoLoop, DoPersist, DoInit, Apply, EffectOf, Local, StartsOk, StageFits, RelyStage,
         Base.Rely, G.Shape, G.Keyed;
    ActorStageFits(sh, t, pc, act, sh', pc');
    if act.FinishLoopAttempt? && pc.LoopDone? && HoldsRefreshClaim(sh.core, pc.claim) {
      ReleaseKeepsStarts(sh, t, pc, act.now, sh', pc');
      NoHolderRely(sh, sh');
    } else {
      FinishWithoutClaim(sh, t, pc, act, sh', pc');
      OtherKeepsStarts(sh, t, EffectOf(sh, pc, act), sh');
    }
  }

  lemma NoHolderRely(sh: Shared, sh': Shared)
    requires sh'.ghosts.refreshHolder == None
    ensures forall u :: RelyStage(u, sh, sh')
  {}

  lemma FinishWithoutClaim(sh: Shared, t: Thread, pc: Pc, act: Action, sh': Shared, pc': Pc)
    requires Do(sh, t, pc, act) == Some((sh', pc'))
    requires act.FinishLoopAttempt? && pc.LoopDone? ==> !HoldsRefreshClaim(sh.core, pc.claim)
    ensures act.FinishLoopAttempt? ==> sh'.ghosts.lastCompletion == sh.ghosts.lastCompletion
    ensures EffectOf(sh, pc, act).ClaimFinished? ==>
              !HoldsRefreshClaim(sh.core, EffectOf(sh, pc, act).claim)
  {
    hide DoLogin, DoLogout, DoCommit, DoRestore, DoToken, DoJoin, DoGrant, DoRefusal, DoClose,
         DoPersist, DoInit;
  }

  ghost predicate StagesHold(s: System) {
    && Inv(s)
    && StartsOk(s.shared)
    && forall t :: StageFits(s.shared, t, PcOf(s, t))
  }

  lemma SystemStepKeepsStages(s: System, t: Thread, act: Action, s': System)
    requires StagesHold(s) && StepTo(s, t, act) == Some(s')
    ensures StagesHold(s')
  {
    hide Do, Global, Local, Base.Rely, StartsOk, StageFits, RelyStage;
    SystemStepKeeps(s, t, act, s');
    StepKeepsStarts(s.shared, t, PcOf(s, t), act, s'.shared, PcOf(s', t));
    forall u ensures StageFits(s'.shared, u, PcOf(s', u)) {
      if u != t {
        RelyKeepsStageFits(u, PcOf(s, u), s.shared, s'.shared);
      }
    }
  }

  lemma {:induction false} RunStages(r: Run, i: nat)
    requires IsRun(r) && i < |r.states|
    ensures StagesHold(r.states[i])
  {
    if i == 0 {
      InitialInv(r.states[0]);
    } else {
      RunStages(r, i - 1);
      assert IsStep(r, i - 1);
      SystemStepKeepsStages(r.states[i - 1], r.labels[i - 1].thread, r.labels[i - 1].action,
                            r.states[i]);
    }
  }
}
