/**
 What the two supervisors decide (pkceflow.go:228-325, persistence.go:93-128), exactly and
 in every state of every run: when they act, until when they sleep, and that a sleeper's
 timer is never too late.
*/
module DecisionTheorems {
  import opened Base
  import opened Basics
  import opened ClientCore
  import opened CoreEvents
  import opened Errors
  import opened ParkingTheorems
  import opened Places
  import opened Protocol
  import opened ScheduleTheorems
  import opened Scheduling
  import opened SessionTheorems
  import opened StageTimes
  import opened Tokens
  import opened Wakeups
  import Commits
  import G = Generations
  import Retries

  // ----- the situation of a generation ------------------------------------------

  /** Nothing has been decided for this generation yet, or no claim of it is out and it is
      neither expired nor parked. */
  predicate Undecided(c: Core) {
    c.schedule.valid && c.schedule.revision == c.revision ==>
      c.schedule.claimID == 0 && c.schedule.disposition.Active?
  }

  predicate Refreshable(c: Core) {
    c.state.refreshToken != "" && c.discovery.Some?
  }

  predicate HasLifetime(c: Core) {
    0 < c.state.lastAuthAt < c.state.expiresAt
  }

  function Stage(c: Core): nat {
    if c.schedule.valid && c.schedule.revision == c.revision then c.schedule.nextStage else 1
  }

  function NotBefore(c: Core): Time {
    if c.schedule.valid && c.schedule.revision == c.revision then c.schedule.retryNotBefore else 0
  }

  /** The lifetime is long enough for this many halvings. */
  predicate StageLeft(c: Core)
    requires HasLifetime(c)
  {
    Pow2(Stage(c)) <= c.state.expiresAt - c.state.lastAuthAt
  }

  /** What is left of the lifetime after the halvings lies before the expiry; the pause
      after an attempt may push the moment further out. */
  function Due(c: Core): int
    requires HasLifetime(c)
  {
    var threshold := c.state.expiresAt - (c.state.expiresAt - c.state.lastAuthAt) / Pow2(Stage(c));
    if threshold < NotBefore(c) then NotBefore(c) else threshold
  }

  predicate ClaimDue(c: Core, now: Time) {
    && Undecided(c) && Refreshable(c) && HasLifetime(c) && StageLeft(c)
    && Due(c) <= now < c.state.expiresAt
  }

  predicate ClaimAhead(c: Core, now: Time) {
    && Undecided(c) && Refreshable(c) && HasLifetime(c) && StageLeft(c)
    && now < Due(c) < c.state.expiresAt
  }

  /** There is no moment left at which an attempt could start. */
  predicate TooLate(c: Core, now: Time) {
    && Undecided(c) && Refreshable(c) && c.state.expiresAt != 0
    && (|| c.state.expiresAt <= now
        || (HasLifetime(c) && (!StageLeft(c) || c.state.expiresAt <= Due(c))))
  }

  predicate EventPending(c: Core) {
    Parked(c) && c.schedule.claimID == 0 && !c.schedule.eventEmitted
  }

  // ----- one decision -----------------------------------------------------------

  /** The stage time of the source, in closed form. */
  lemma StageTimeIs(c: Core)
    requires HasLifetime(c) && Stage(c) >= 1
    ensures
      if StageLeft(c) then
        StageTime(c.state, Stage(c))
        == Some(c.state.expiresAt - (c.state.expiresAt - c.state.lastAuthAt) / Pow2(Stage(c)))
      else StageTime(c.state, Stage(c)) == None
  {
    HalvedIsQuotient(Lifetime(c.state), Stage(c));
    QuotientIsPositive(Lifetime(c.state), Pow2(Stage(c)));
  }

  lemma QuotientIsPositive(n: nat, d: nat)
    requires d > 0
    ensures 0 < n / d <==> d <= n
  {
    DivisionBounds(n, d);
    if n / d >= 1 {
      MulAtLeast(d, n / d);
    }
  }

  /** Exactly one thing happens, and it is determined by the fields. */
  lemma DecisionIs(c: Core, now: Time)
    requires Stage(c) >= 1
    ensures
      var (c', next) := NextRefresh(c, now);
      var s := c'.schedule;
      && (ClaimDue(c, now) ==>
            && next == Attempt(Claim(c.revision, c.state, Stage(c), c.refreshClaimSeq + 1))
            && s == CurrentSchedule(c).(claimID := c.refreshClaimSeq + 1))
      && (ClaimAhead(c, now) ==> next == WaitFor(Due(c), c.wake) && s == CurrentSchedule(c))
      && (TooLate(c, now) ==>
            next == WaitFor(0, c'.wake) && s == CurrentSchedule(c).(disposition := BlockedExpired))
      && (EventPending(c) && c.schedule.eventAt <= now ==>
            next == EmitExpired(c.revision) && s == c.schedule.(eventEmitted := true))
      && (EventPending(c) && now < c.schedule.eventAt ==>
            next == WaitFor(c.schedule.eventAt, c.wake) && s == c.schedule)
      && (!ClaimDue(c, now) && !ClaimAhead(c, now) && !TooLate(c, now) && !EventPending(c) ==>
            next == WaitFor(0, c.wake) && s == CurrentSchedule(c))
  {
    if HasLifetime(c) {
      StageTimeIs(c);
    }
    hide StageTime;
  }

  /** The four situations exclude each other. */
  lemma SituationsAreDisjoint(c: Core, now: Time)
    ensures ClaimDue(c, now) ==> !ClaimAhead(c, now) && !TooLate(c, now) && !EventPending(c)
    ensures ClaimAhead(c, now) ==> !TooLate(c, now) && !EventPending(c)
    ensures TooLate(c, now) ==> !EventPending(c)
  {}

  /** In every state, a supervisor's decision is given by the fields: it is handed a claim of
      exactly the next stage if and only if that stage exists and its moment has come
      before the expiry; it reports an expiry if and only if the event of a parked
      generation is due; it gives the generation up if and only if no moment is left; it
      sleeps until exactly the next threshold or event, if there is one. */
  lemma SupervisorDecides(r: Run, i: nat)
    requires IsRun(r) && i < |r.labels| && r.labels[i].action.NextLoopAction?
    ensures
      var c, c', now := At(r, i).core, At(r, i + 1).core, r.labels[i].action.now;
      var pc' := PcOf(r.states[i + 1], r.labels[i].thread);
      && (pc'.LoopTrying? <==> ClaimDue(c, now))
      && (pc'.LoopTrying? ==>
            && pc'.claim == Claim(c.revision, c.state, Stage(c), c.refreshClaimSeq + 1)
            && c'.schedule.claimID == c.refreshClaimSeq + 1)
      && (pc'.LoopEmitting? <==> EventPending(c) && c.schedule.eventAt <= now)
      && (pc'.LoopEmitting? ==> pc'.revision == c.revision && c'.schedule.eventEmitted)
      && (!pc'.LoopTrying? && !pc'.LoopEmitting? ==>
            pc' == LoopWaiting(c'.wake, if ClaimAhead(c, now) then Due(c)
                                        else if EventPending(c) then c.schedule.eventAt
                                        else 0))
      && (BlockedAs(c', BlockedExpired) && !BlockedAs(c, BlockedExpired) <==> TooLate(c, now))
  {
    hide Do, Initial, StagesHold;
    RunStages(r, i);
    StageIsPositive(r.states[i]);
    StepAt(r, i);
    var t := r.labels[i].thread;
    LoopDecides(At(r, i), t, ActorPc(r, i), r.labels[i].action, At(r, i + 1), PcOf(r.states[i + 1], t));
  }

  lemma StageIsPositive(s: System)
    requires StagesHold(s)
    ensures Stage(s.shared.core) >= 1
  {}

  lemma DecisionPlaces(sh: Shared, t: Thread, pc: Pc, act: Action, sh': Shared, pc': Pc)
    requires act.NextLoopAction? && Do(sh, t, pc, act) == Some((sh', pc'))
    ensures
      var (core, next) := NextRefresh(sh.core, act.now);
      && sh'.core == core
      && pc' == match next
                case WaitFor(due, wake) => LoopWaiting(wake, due)
                case Attempt(claim) => LoopTrying(claim)
                case EmitExpired(revision) => LoopEmitting(revision)
  {
    EveryActionIsGrouped(act);
    Dispatch(sh, t, pc, act);
    hide Do, GroupOf, NextRefresh;
  }

  lemma LoopDecides(sh: Shared, t: Thread, pc: Pc, act: Action, sh': Shared, pc': Pc)
    requires act.NextLoopAction? && Do(sh, t, pc, act) == Some((sh', pc')) && Stage(sh.core) >= 1
    ensures
      var c, c', now := sh.core, sh'.core, act.now;
      && (pc'.LoopTrying? <==> ClaimDue(c, now))
      && (pc'.LoopTrying? ==>
            && pc'.claim == Claim(c.revision, c.state, Stage(c), c.refreshClaimSeq + 1)
            && c'.schedule.claimID == c.refreshClaimSeq + 1)
      && (pc'.LoopEmitting? <==> EventPending(c) && c.schedule.eventAt <= now)
      && (pc'.LoopEmitting? ==> pc'.revision == c.revision && c'.schedule.eventEmitted)
      && (!pc'.LoopTrying? && !pc'.LoopEmitting? ==>
            pc' == LoopWaiting(c'.wake, if ClaimAhead(c, now) then Due(c)
                                        else if EventPending(c) then c.schedule.eventAt
                                        else 0))
      && (BlockedAs(c', BlockedExpired) && !BlockedAs(c, BlockedExpired) <==> TooLate(c, now))
  {
    DecisionPlaces(sh, t, pc, act, sh', pc');
    DecisionIs(sh.core, act.now);
    SituationsAreDisjoint(sh.core, act.now);
    WakeRead(sh.core, act.now);
    DecisionKeepsStage(sh.core, act.now);
    ExpiredIsDecided(sh.core, act.now);
    hide Do, NextRefresh, ClaimDue, ClaimAhead, TooLate, EventPending, Due, Stage;
  }

  /** An expired generation is in none of the situations. */
  lemma ExpiredIsDecided(c: Core, now: Time)
    ensures BlockedAs(c, BlockedExpired) ==>
              !ClaimDue(c, now) && !ClaimAhead(c, now) && !TooLate(c, now) && !EventPending(c)
    ensures TooLate(c, now) ==> CurrentSchedule(c).valid && CurrentSchedule(c).revision == c.revision
    ensures EventPending(c) ==> CurrentSchedule(c) == c.schedule
  {}

  // ----- timers are never late --------------------------------------------------

  /** A claim of the next stage will be due before the expiry. */
  predicate Claimable(c: Core) {
    && Undecided(c) && Refreshable(c) && HasLifetime(c) && StageLeft(c)
    && Due(c) < c.state.expiresAt
  }

  /** A supervisor that sleeps on an open channel has its timer set for the next threshold
      of a claimable generation, or for the event of a parked one, or earlier. */
  lemma WakesInTime(r: Run, i: nat, t: Thread)
    requires IsRun(r) && i < |r.states|
    requires PcOf(r.states[i], t).LoopWaiting? && PcOf(r.states[i], t).wake == At(r, i).core.wake
    ensures Claimable(At(r, i).core) ==> 0 < PcOf(r.states[i], t).due <= Due(At(r, i).core)
    ensures EventPending(At(r, i).core) ==>
              0 < PcOf(r.states[i], t).due <= At(r, i).core.schedule.eventAt
  {
    hide Do, Initial, StagesHold, SleepsUntil, PersistSleepsUntil, IsStep;
    NoLostWakeup(r, i);
    RunStages(r, i);
    StageIsPositive(r.states[i]);
    assert StillAsleep(At(r, i).core, PcOf(r.states[i], t));
    SleepsInTime(At(r, i).core, PcOf(r.states[i], t).due);
  }

  lemma SleepsInTime(c: Core, due: Time)
    requires Stage(c) >= 1 && SleepsUntil(c, due)
    ensures Claimable(c) ==> 0 < due <= Due(c)
    ensures EventPending(c) ==> 0 < due <= c.schedule.eventAt
  {
    hide NextRefresh;
    if Claimable(c) {
      var at: Time := Due(c);
      assert ClaimDue(c, at);
      DecisionIs(c, at);
      assert !Sleeps(c, at);
    }
    if EventPending(c) {
      DecisionIs(c, c.schedule.eventAt);
      assert !Sleeps(c, c.schedule.eventAt);
    }
  }

  // ----- the stage after a completed one ----------------------------------------

  predicate UsesUp(result: AttemptResult) {
    result.Temporary? || result.CanceledAfterStart? || result.Succeeded?
  }

  lemma EventKeepsStage(c: Core, e: Event)
    requires c.schedule.valid && c.schedule.revision == c.revision && Apply(c, e).revision == c.revision
    requires e.ClaimFinished? && HoldsRefreshClaim(c, e.claim) ==> !UsesUp(e.result)
    ensures
      var s := Apply(c, e).schedule;
      s.valid && s.nextStage == c.schedule.nextStage && s.retryNotBefore == c.schedule.retryNotBefore
  {
    if e.RefreshDecided? {
      DecisionKeepsStage(c, e.now);
      hide NextRefresh;
    }
  }

  /** An attempt that was used up moves its generation to the next stage, ten seconds
      later at the earliest. */
  lemma EventUsesStage(c: Core, e: Event)
    requires e.ClaimFinished? && HoldsRefreshClaim(c, e.claim) && UsesUp(e.result)
    ensures
      var s := Apply(c, e).schedule;
      && Apply(c, e).revision == c.revision && s.valid && s.claimID == 0
      && s.nextStage == e.claim.stage + 1 && s.retryNotBefore == e.now + 10_000_000_000
  {}

  lemma ReleaseEffect(r: Run, k: nat)
    requires IsRun(r) && k < |r.labels|
    ensures
      var e := EffectOf(At(r, k), ActorPc(r, k), r.labels[k].action);
      && At(r, k + 1).core == Apply(At(r, k).core, e)
      && (CompletesStage(r, k) <==>
            e.ClaimFinished? && HoldsRefreshClaim(At(r, k).core, e.claim) && UsesUp(e.result))
      && (CompletesStage(r, k) ==>
            e.claim == ActorPc(r, k).claim && e.now == r.labels[k].action.now)
  {
    hide Do, Initial, Apply, HoldsRefreshClaim, Arrives, PartOf, Untouched;
    StepAt(r, k);
    var t := r.labels[k].thread;
    StepEvent(At(r, k), t, ActorPc(r, k), r.labels[k].action, At(r, k + 1), PcOf(r.states[k + 1], t));
  }

  lemma StageIsUsed(r: Run, k: nat)
    requires IsRun(r) && k < |r.labels| && CompletesStage(r, k)
    ensures ActorPc(r, k).LoopDone?
    ensures
      var s := At(r, k + 1).core.schedule;
      && s.valid && s.nextStage == ActorPc(r, k).claim.stage + 1
      && s.retryNotBefore == r.labels[k].action.now + 10_000_000_000
  {
    CompletedByHolder(r, k);
    hide Initial, IsStep, CompletesStage, Apply, EffectOf;
    ReleaseEffect(r, k);
    EventUsesStage(At(r, k).core, EffectOf(At(r, k), ActorPc(r, k), r.labels[k].action));
  }

  lemma StageIsKept(r: Run, i: nat)
    requires IsRun(r) && i < |r.labels| && !CompletesStage(r, i)
    requires At(r, i + 1).core.revision == At(r, i).core.revision && At(r, i).core.schedule.valid
    ensures
      var s, s' := At(r, i).core.schedule, At(r, i + 1).core.schedule;
      s'.valid && s'.nextStage == s.nextStage && s'.retryNotBefore == s.retryNotBefore
  {
    hide Initial, IsStep, CompletesStage, Apply, EffectOf, Inv;
    RunInv(r, i);
    KeyedSchedule(r.states[i]);
    ReleaseEffect(r, i);
    EventKeepsStage(At(r, i).core, EffectOf(At(r, i), ActorPc(r, i), r.labels[i].action));
  }

  lemma {:induction false} StageStands(r: Run, k: nat, i: nat)
    requires IsRun(r) && k < i < |r.states| && CompletesStage(r, k)
    requires forall m :: k < m < i ==> !CompletesStage(r, m)
    requires At(r, i).core.revision == At(r, k).core.revision
    ensures ActorPc(r, k).LoopDone?
    ensures
      var s := At(r, i).core.schedule;
      && s.valid && s.nextStage == ActorPc(r, k).claim.stage + 1
      && s.retryNotBefore == r.labels[k].action.now + 10_000_000_000
    decreases i
  {
    CompletedByHolder(r, k);
    StageIsUsed(r, k);
    hide Initial, IsStep, CompletesStage;
    if k < i - 1 {
      RevisionsGrow(r, k, i - 1);
      RevisionsGrow(r, i - 1, i);
      StageStands(r, k, i - 1);
      assert !CompletesStage(r, i - 1);
      StageIsKept(r, i - 1);
    }
  }

  lemma CompletedByHolder(r: Run, k: nat)
    requires IsRun(r) && k < |r.labels| && CompletesStage(r, k)
    ensures ActorPc(r, k).LoopDone? && r.labels[k].action.FinishLoopAttempt?
  {}

  /** After stage n was used up at `done`, a decision in the same generation claims stage
      n + 1 if and only if no claim is out, the generation is neither parked nor given up
      and can be refreshed, 2^(n+1) nanoseconds fit into its lifetime, and the time is
      between the threshold -- ten seconds after `done` at the earliest -- and the expiry. */
  lemma NextStageIsClaimed(r: Run, k: nat, i: nat)
    requires IsRun(r) && k < i < |r.labels| && CompletesStage(r, k)
    requires forall m :: k < m < i ==> !CompletesStage(r, m)
    requires At(r, i).core.revision == At(r, k).core.revision
    requires r.labels[i].action.NextLoopAction?
    ensures ActorPc(r, k).LoopDone? && r.labels[k].action.FinishLoopAttempt?
    ensures
      var c, now, done := At(r, i).core, r.labels[i].action.now, r.labels[k].action.now;
      var stage, pc' := ActorPc(r, k).claim.stage + 1, PcOf(r.states[i + 1], r.labels[i].thread);
      && (pc'.LoopTrying? <==>
            && c.schedule.claimID == 0 && c.schedule.disposition.Active?
            && c.state.refreshToken != "" && c.discovery.Some?
            && 0 < c.state.lastAuthAt < c.state.expiresAt
            && Pow2(stage) <= c.state.expiresAt - c.state.lastAuthAt
            && c.state.expiresAt - (c.state.expiresAt - c.state.lastAuthAt) / Pow2(stage) <= now
            && done + 10_000_000_000 <= now < c.state.expiresAt)
      && (pc'.LoopTrying? ==> pc'.claim.stage == stage)
  {
    StageStands(r, k, i);
    CompletedByHolder(r, k);
    hide Initial, IsStep, CompletesStage, Inv;
    RunInv(r, i);
    KeyedSchedule(r.states[i]);
    SupervisorDecides(r, i);
  }

  /** A claim that is given back before its attempt started leaves everything as it was:
      the same stage will be claimed again. */
  lemma UnusedClaimIsGivenBack(r: Run, i: nat)
    requires IsRun(r) && i < |r.labels| && r.labels[i].action.FinishLoopAttempt?
    requires ActorPc(r, i).LoopDone? && ActorPc(r, i).result.CanceledBeforeStart?
    requires HoldsRefreshClaim(At(r, i).core, ActorPc(r, i).claim)
    ensures At(r, i + 1).core.schedule == At(r, i).core.schedule.(claimID := 0)
    ensures At(r, i + 1).core.state == At(r, i).core.state
  {
    hide Do, Initial, Arrives, PartOf, Untouched;
    ReleaseEffect(r, i);
  }

  // ----- the persistence supervisor ---------------------------------------------

  /** A Save of the current generation is owed and nobody is at it. */
  predicate Owed(c: Core) {
    c.retry.valid && c.retry.revision == c.revision && c.retry.claimID == 0
  }

  lemma PersistenceIs(c: Core, now: Time)
    ensures
      var (c', next) := NextPersistence(c, now);
      if Owed(c) && c.retry.retryAt <= now then
        && next == PersistClaim(c.revision, c.persistenceClaimSeq + 1)
        && c'.retry == c.retry.(claimID := c.persistenceClaimSeq + 1)
      else next == PersistWait(if Owed(c) then c.retry.retryAt else 0, c.wake)
  {}

  /** A retry is claimed if and only if one is owed and its moment has come; until then the
      supervisor sleeps until exactly that moment, and it sleeps without a timer only if
      nothing is owed. */
  lemma PersistenceDecides(r: Run, i: nat)
    requires IsRun(r) && i < |r.labels| && r.labels[i].action.NextPersistAction?
    ensures
      var c, c', now := At(r, i).core, At(r, i + 1).core, r.labels[i].action.now;
      var pc' := PcOf(r.states[i + 1], r.labels[i].thread);
      && (pc'.PersistClaimed? <==> Owed(c) && c.retry.retryAt <= now)
      && (pc'.PersistClaimed? ==>
            && pc'.revision == c.revision && pc'.id == c.persistenceClaimSeq + 1
            && c'.retry == c.retry.(claimID := pc'.id))
      && (!pc'.PersistClaimed? ==>
            pc' == PersistWaiting(c.wake, if Owed(c) then c.retry.retryAt else 0))
      && (Owed(c) ==> c.retry.retryAt > 0)
  {
    hide Do, Initial;
    StepAt(r, i);
    Retries.RunRetries(r, i);
    var t := r.labels[i].thread;
    PersistDecides(At(r, i), t, ActorPc(r, i), r.labels[i].action, At(r, i + 1), PcOf(r.states[i + 1], t));
  }

  lemma PersistDecides(sh: Shared, t: Thread, pc: Pc, act: Action, sh': Shared, pc': Pc)
    requires act.NextPersistAction? && Do(sh, t, pc, act) == Some((sh', pc'))
    ensures
      var c := sh.core;
      if Owed(c) && c.retry.retryAt <= act.now then
        && pc' == PersistClaimed(c.revision, c.persistenceClaimSeq + 1)
        && sh'.core.retry == c.retry.(claimID := c.persistenceClaimSeq + 1)
      else pc' == PersistWaiting(c.wake, if Owed(c) then c.retry.retryAt else 0)
  {
    EveryActionIsGrouped(act);
    Dispatch(sh, t, pc, act);
    PersistenceIs(sh.core, act.now);
    hide Do, GroupOf, NextPersistence, Owed;
  }

  /** The timer of a sleeping persistence supervisor is never late. */
  lemma RetryWakesInTime(r: Run, i: nat, t: Thread)
    requires IsRun(r) && i < |r.states|
    requires PcOf(r.states[i], t).PersistWaiting? && PcOf(r.states[i], t).wake == At(r, i).core.wake
    ensures Owed(At(r, i).core) ==> 0 < PcOf(r.states[i], t).due <= At(r, i).core.retry.retryAt
  {
    hide Do, Initial, SleepsUntil, IsStep;
    NoLostWakeup(r, i);
    assert StillAsleep(At(r, i).core, PcOf(r.states[i], t));
    PersistenceIs(At(r, i).core, At(r, i).core.retry.retryAt);
    assert Owed(At(r, i).core) ==> !PersistSleeps(At(r, i).core, At(r, i).core.retry.retryAt);
  }

  lemma EventKeepsPending(c: Core, e: Event)
    requires c.retry.valid && c.retry.revision == c.revision && Apply(c, e).revision == c.revision
    requires !e.Cleared? && !e.SaveRecorded? && !e.RetryFinished?
    ensures Apply(c, e).retry.valid
  {}

  lemma OnlyClearStateClears(sh: Shared, pc: Pc, act: Action)
    ensures EffectOf(sh, pc, act).Cleared? ==> act.ClearState?
  {}

  lemma {:induction false} PendingStands(r: Run, k: nat, i: nat)
    requires IsRun(r) && k < i < |r.states| && SaveFails(r, k)
    requires forall m :: k < m < i ==>
               && !r.labels[m].action.RecordSaveResult? && !r.labels[m].action.FinishRetrySave?
               && !r.labels[m].action.ClearState?
    requires At(r, i).core.revision == At(r, k + 1).core.revision
    ensures At(r, i).core.retry.valid && At(r, i).core.retry.revision == At(r, i).core.revision
    decreases i
  {
    RunInv(r, i);
    KeyedRetry(r.states[i]);
    hide Initial, IsStep, Apply, EffectOf, Inv, SaveFails;
    if k + 1 < i {
      RevisionsGrow(r, k + 1, i - 1);
      RevisionsGrow(r, i - 1, i);
      PendingStands(r, k, i - 1);
      ReleaseEffect(r, i - 1);
      var act := r.labels[i - 1].action;
      Retries.OtherEffects(At(r, i - 1), ActorPc(r, i - 1), act);
      OnlyClearStateClears(At(r, i - 1), ActorPc(r, i - 1), act);
      EventKeepsPending(At(r, i - 1).core, EffectOf(At(r, i - 1), ActorPc(r, i - 1), act));
    } else {
      FailureIsPending(r, k);
    }
  }

  lemma FailureIsPending(r: Run, k: nat)
    requires IsRun(r) && k < |r.labels| && SaveFails(r, k)
    ensures At(r, k + 1).core.retry.valid
  {}

  lemma KeyedRetry(s: System)
    requires Inv(s)
    ensures s.shared.core.retry.valid ==> s.shared.core.retry.revision == s.shared.core.revision
  {}

  /** After the n-th failed Save of a generation, as long as that generation is current, no
      Logout has cleared it and no later Save has ended, a decision claims a retry if and
      only if none is out and 1, 2, 4, 8, 16, 32 or, from the seventh on, 60 seconds have
      passed since the failure. */
  lemma RetryIsClaimed(r: Run, k: nat, i: nat)
    requires IsRun(r) && k < i < |r.labels| && SaveFails(r, k)
    requires forall m :: k < m < i ==>
               && !r.labels[m].action.RecordSaveResult? && !r.labels[m].action.FinishRetrySave?
               && !r.labels[m].action.ClearState?
    requires At(r, i).core.revision == At(r, k + 1).core.revision
    requires r.labels[i].action.NextPersistAction?
    ensures At(r, k + 1).core.retry.failures >= 1
    ensures
      var n, failed := At(r, k + 1).core.retry.failures, ReadingOf(r.labels[k].action);
      var delay := if n <= 6 then Pow2(n - 1) * 1_000_000_000 else 60_000_000_000;
      PcOf(r.states[i + 1], r.labels[i].thread).PersistClaimed? <==>
        At(r, i).core.retry.claimID == 0 && failed + delay <= r.labels[i].action.now
  {
    PendingStands(r, k, i);
    FailuresAreCounted(r, k);
    FailureIsPending(r, k);
    Retries.RunRetries(r, k + 1);
    RetryDelayIs(At(r, k + 1).core.retry.failures);
    hide Initial, IsStep, SaveFails, RetryDelay;
    FailureStands(r, k, i);
    Retries.RunRetries(r, i);
    PersistenceDecides(r, i);
  }

  /** A claimed retry goes on to its Save if and only if its claim still stands and the
      supervisor is alive; a Save that succeeds leaves the state of memory in the store
      and nothing owed. */
  lemma RetrySettles(r: Run, i: nat)
    requires IsRun(r) && i < |r.labels|
    ensures
      var c, act, pc := At(r, i).core, r.labels[i].action, ActorPc(r, i);
      act.LockForRetry? ==>
        && pc.PersistClaimed?
        && (PcOf(r.states[i + 1], r.labels[i].thread) == PersistSaving(pc.revision, pc.id) <==>
              && act.alive && c.retry.valid && c.retry.claimID == pc.id
              && c.retry.revision == pc.revision == c.revision)
    ensures r.labels[i].action.FinishRetrySave? && ActorPc(r, i).PersistUpdating? && !ActorPc(r, i).failed ==>
              !At(r, i + 1).core.retry.valid && At(r, i + 1).store == At(r, i + 1).core.state
  {
    hide Do, Initial, Inv, Commits.CommitInv, Commits.OpFits;
    Commits.RunCommits(r, i);
    StepAt(r, i);
    var t := r.labels[i].thread;
    assert Commits.CommitFits(At(r, i), t, ActorPc(r, i));
    RetrySteps(At(r, i), t, ActorPc(r, i), r.labels[i].action, At(r, i + 1), PcOf(r.states[i + 1], t));
  }

  lemma RetrySteps(sh: Shared, t: Thread, pc: Pc, act: Action, sh': Shared, pc': Pc)
    requires Do(sh, t, pc, act) == Some((sh', pc')) && Commits.StoreFits(sh, pc)
    ensures act.LockForRetry? ==>
              && pc.PersistClaimed?
              && (pc' == PersistSaving(pc.revision, pc.id) <==>
                    && act.alive && sh.core.retry.valid && sh.core.retry.claimID == pc.id
                    && sh.core.retry.revision == pc.revision == sh.core.revision)
    ensures act.FinishRetrySave? && pc.PersistUpdating? && !pc.failed ==>
              !sh'.core.retry.valid && sh'.store == sh'.core.state
  {
    EveryActionIsGrouped(act);
    Dispatch(sh, t, pc, act);
    hide Do, GroupOf, DoLogin, DoLogout, DoCommit, DoRestore, DoToken, DoJoin, DoGrant, DoRefusal,
         DoClose, DoLoop, DoInit, NextPersistence;
  }
}
