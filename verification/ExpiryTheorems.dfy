/**
 When a parked generation is reported as expired (pkceflow.go:250-269 and 487-571), for
 every run: what parks a generation, and that the report waits for the end of grace, and
 no longer.
*/
module ExpiryTheorems {
  import opened Base
  import opened Basics
  import opened ClientCore
  import opened CoreEvents
  import opened DecisionTheorems
  import opened Errors
  import opened ParkingTheorems
  import opened Places
  import opened Protocol
  import opened SessionTheorems
  import opened StageTimes
  import opened Tokens
  import A = Attempts
  import G = Generations

  // ----- what parks a generation ------------------------------------------------

  /** How a failure of the current generation is recorded. */
  function ParkedAs(failure: Failure): Option<Disposition> {
    match failure
    case IntegrityFailure => Some(BlockedIntegrity)
    case InvalidGrant | ClientRefused | BlockedPermanently => Some(BlockedPermanent)
    case OtherAuth | Uninitialized | ExpiredBeforeStart | Cancelled | Transport => None
  }

  /** The failure that step `act` records for the current generation. */
  function RecordedFailure(sh: Shared, pc: Pc, act: Action): Option<Failure> {
    if act.FinishAttempt? && pc.Finishing? && pc.attempt in sh.attempts
       && sh.attempts[pc.attempt].revision == sh.core.revision then pc.outcome.failure
    else if act.BlockGeneration? && pc.TokenBlocking? && pc.revision == sh.core.revision then
      Some(pc.failure)
    else None
  }

  /** What a supervisor records when it releases the claim that is out. */
  function ReleasedAs(sh: Shared, pc: Pc, act: Action): Option<Disposition> {
    if act.FinishLoopAttempt? && pc.LoopDone? && HoldsRefreshClaim(sh.core, pc.claim) then
      match pc.result
      case PermanentResult => Some(BlockedPermanent)
      case IntegrityResult => Some(BlockedIntegrity)
      case Succeeded | Temporary | CanceledBeforeStart | CanceledAfterStart | ExpiredResult => None
    else None
  }

  /** A step parks a generation, and as what, exactly by the failure it records for it. */
  lemma ParkingIsExact(r: Run, i: nat)
    requires IsRun(r) && i < |r.labels| && !Parked(At(r, i).core)
    requires At(r, i + 1).core.revision == At(r, i).core.revision
    ensures
      var failure := RecordedFailure(At(r, i), ActorPc(r, i), r.labels[i].action);
      var released := ReleasedAs(At(r, i), ActorPc(r, i), r.labels[i].action);
      forall d: Disposition :: d.BlockedPermanent? || d.BlockedIntegrity? ==>
        (BlockedAs(At(r, i + 1).core, d) <==>
           (failure.Some? && ParkedAs(failure.value) == Some(d)) || released == Some(d))
  {
    hide Do, Initial, Apply, Arrives, PartOf, Untouched, Parked, EffectOf, BlockedAs;
    StepAt(r, i);
    var t := r.labels[i].thread;
    StepEvent(At(r, i), t, ActorPc(r, i), r.labels[i].action, At(r, i + 1), PcOf(r.states[i + 1], t));
    forall d: Disposition | d.BlockedPermanent? || d.BlockedIntegrity?
      ensures BlockedAs(At(r, i + 1).core, d) <==>
                Parks(At(r, i).core, EffectOf(At(r, i), ActorPc(r, i), r.labels[i].action), d)
    {
      EventParksAs(At(r, i).core, EffectOf(At(r, i), ActorPc(r, i), r.labels[i].action), d);
    }
    EffectParks(At(r, i), ActorPc(r, i), r.labels[i].action);
    hide *;
  }

  predicate Parks(c: Core, e: Event, d: Disposition) {
    match e
    case IntegrityBlocked(revision, _) => c.revision == revision && d.BlockedIntegrity?
    case PermanentBlocked(revision, _, _) => c.revision == revision && d.BlockedPermanent?
    case AttemptFailed(revision, _, failure, _, _) =>
      c.revision == revision && ParkedAs(failure) == Some(d)
    case ClaimFinished(claim, result, _) =>
      && HoldsRefreshClaim(c, claim)
      && ((result.PermanentResult? && d.BlockedPermanent?)
          || (result.IntegrityResult? && d.BlockedIntegrity?))
    case _ => false
  }

  lemma EventParksAs(c: Core, e: Event, d: Disposition)
    requires !Parked(c) && Apply(c, e).revision == c.revision
    requires d.BlockedPermanent? || d.BlockedIntegrity?
    ensures BlockedAs(Apply(c, e), d) <==> Parks(c, e, d)
  {}

  lemma EffectParks(sh: Shared, pc: Pc, act: Action)
    ensures
      var failure, released := RecordedFailure(sh, pc, act), ReleasedAs(sh, pc, act);
      forall d: Disposition :: d.BlockedPermanent? || d.BlockedIntegrity? ==>
        (Parks(sh.core, EffectOf(sh, pc, act), d) <==>
           (failure.Some? && ParkedAs(failure.value) == Some(d)) || released == Some(d))
  {}

  // ----- when the event is due --------------------------------------------------

  /** The end of grace, if the configuration and the tokens define one. */
  function GraceEnd(c: Core): Time {
    if c.grace > 0 && c.state.lastAuthAt != 0 then c.state.lastAuthAt + c.grace else 0
  }

  /** The event of a refused generation is due at the end of grace or when the failure was
      recorded, whichever is later; that of an integrity failure when it was recorded. */
  ghost predicate TimesOk(c: Core, clock: Time) {
    && (BlockedAs(c, BlockedPermanent) ==>
          && GraceEnd(c) <= c.schedule.eventAt
          && 0 < c.schedule.eventAt <= Max(GraceEnd(c), clock))
    && (BlockedAs(c, BlockedIntegrity) ==> 0 < c.schedule.eventAt <= clock)
  }

  predicate Past(now: Time, clock: Time) {
    0 < now <= clock
  }

  /** The section reads the clock, and presents the state it was taken for. */
  ghost predicate Timed(c: Core, e: Event, clock: Time) {
    match e
    case IntegrityBlocked(_, now) => Past(now, clock)
    case PermanentBlocked(revision, snapshot, now) =>
      Past(now, clock) && (revision == c.revision ==> snapshot == c.state)
    case AttemptFailed(revision, snapshot, _, _, now) =>
      Past(now, clock) && (revision == c.revision ==> snapshot == c.state)
    case ClaimFinished(claim, _, now) =>
      Past(now, clock) && (HoldsRefreshClaim(c, claim) ==> claim.state == c.state)
    case _ => true
  }

  /** The event time of a failure, in closed form. */
  lemma EventTimeIs(c: Core, now: Time)
    requires now > 0
    ensures SessionExpiredEventTime(c.grace, c.state, now) == Max(GraceEnd(c), now)
  {}

  lemma EventKeepsTimes(c: Core, e: Event, clock: Time)
    requires TimesOk(c, clock) && Timed(c, e, clock) && Apply(c, e).revision == c.revision
    ensures TimesOk(Apply(c, e), clock)
  {
    match e
    case IntegrityBlocked(_, _) => IntegrityTimes(c, e, clock);
    case PermanentBlocked(_, _, _) => PermanentTimes(c, e, clock);
    case AttemptFailed(_, _, _, _, _) => FailureTimes(c, e, clock);
    case ClaimFinished(_, _, _) => ReleaseTimes(c, e, clock);
    case _ => QuietTimes(c, e, clock);
    hide *;
  }

  lemma IntegrityTimes(c: Core, e: Event, clock: Time)
    requires TimesOk(c, clock) && Timed(c, e, clock) && e.IntegrityBlocked?
    ensures TimesOk(Apply(c, e), clock)
  {}

  lemma PermanentTimes(c: Core, e: Event, clock: Time)
    requires TimesOk(c, clock) && Timed(c, e, clock) && e.PermanentBlocked?
    ensures TimesOk(Apply(c, e), clock)
  {
    EventTimeIs(c, e.now);
    hide SessionExpiredEventTime;
  }

  lemma FailureTimes(c: Core, e: Event, clock: Time)
    requires TimesOk(c, clock) && Timed(c, e, clock) && e.AttemptFailed?
    ensures TimesOk(Apply(c, e), clock)
  {
    IntegrityTimes(c, IntegrityBlocked(e.revision, e.now), clock);
    PermanentTimes(c, PermanentBlocked(e.revision, e.snapshot, e.now), clock);
    MarkTimes(c, e.revision, clock);
    hide TimesOk, BlockIntegrity, BlockPermanent, MarkInconclusive;
  }

  lemma MarkTimes(c: Core, revision: nat, clock: Time)
    requires TimesOk(c, clock)
    ensures TimesOk(MarkInconclusive(c, revision), clock)
  {}

  lemma ReleaseTimes(c: Core, e: Event, clock: Time)
    requires TimesOk(c, clock) && Timed(c, e, clock) && e.ClaimFinished?
    ensures TimesOk(Apply(c, e), clock)
  {
    EventTimeIs(c, e.now);
    hide SessionExpiredEventTime;
  }

  lemma QuietTimes(c: Core, e: Event, clock: Time)
    requires TimesOk(c, clock) && Apply(c, e).revision == c.revision
    requires !e.IntegrityBlocked? && !e.PermanentBlocked? && !e.AttemptFailed? && !e.ClaimFinished?
    ensures TimesOk(Apply(c, e), clock)
  {
    hide StageTime;
  }

  lemma NewGenerationTimes(c: Core, e: Event, clock: Time)
    requires Apply(c, e).revision != c.revision
    ensures TimesOk(Apply(c, e), clock)
  {}

  lemma LaterTimes(c: Core, clock: Time, later: Time)
    requires TimesOk(c, clock) && clock <= later
    ensures TimesOk(c, later)
  {}

  /** Whoever holds the current revision holds the state of memory. */
  ghost predicate StateFits(sh: Shared, pc: Pc) {
    && (SnapshotOf(pc).Some? && SnapshotOf(pc).value.revision == sh.core.revision ==>
          SnapshotOf(pc).value.state == sh.core.state)
    && (forall a :: a in sh.attempts && sh.attempts[a].revision == sh.core.revision ==>
          sh.attempts[a].snapshot == sh.core.state)
  }

  lemma StatesFit(s: System, t: Thread)
    requires Inv(s)
    ensures StateFits(s.shared, PcOf(s, t))
  {
    assert Local(s.shared, t, PcOf(s, t));
    forall a | a in s.shared.attempts && s.shared.attempts[a].revision == s.shared.core.revision
      ensures s.shared.attempts[a].snapshot == s.shared.core.state
    {
      assert A.AttemptOk(s.shared, a);
    }
  }

  lemma ReadingsArePast(sh: Shared, t: Thread, pc: Pc, act: Action)
    requires Do(sh, t, pc, act).Some?
    requires act.BlockGeneration? || act.FinishAttempt? || act.FinishLoopAttempt?
    ensures Past(act.now, sh.clock)
  {
    EveryActionIsGrouped(act);
    Dispatch(sh, t, pc, act);
    hide Do, GroupOf, BlockIntegrity, BlockPermanent, CloseAttempt, ReleaseClaim, NextRefresh;
  }

  lemma StepsAreTimed(sh: Shared, t: Thread, pc: Pc, act: Action)
    requires StateFits(sh, pc)
    requires act.BlockGeneration? || act.FinishAttempt? || act.FinishLoopAttempt? ==>
               Past(act.now, sh.clock)
    ensures Timed(sh.core, EffectOf(sh, pc, act), sh.clock)
  {}

  lemma {:induction false} EventTimes(r: Run, i: nat)
    requires IsRun(r) && i < |r.states|
    ensures TimesOk(At(r, i).core, At(r, i).clock)
  {
    hide Do, Initial, Inv, Apply, EffectOf, TimesOk, Timed, StateFits, Past, Arrives, PartOf;
    if i == 0 {
      StartsUnparked(r);
    } else {
      EventTimes(r, i - 1);
      RunInv(r, i - 1);
      StepAt(r, i - 1);
      var sh, sh', t := At(r, i - 1), At(r, i), r.labels[i - 1].thread;
      var pc, act := ActorPc(r, i - 1), r.labels[i - 1].action;
      StatesFit(r.states[i - 1], t);
      if act.BlockGeneration? || act.FinishAttempt? || act.FinishLoopAttempt? {
        ReadingsArePast(sh, t, pc, act);
      }
      StepsAreTimed(sh, t, pc, act);
      StepEvent(sh, t, pc, act, sh', PcOf(r.states[i], t));

      if sh'.core.revision == sh.core.revision {
        EventKeepsTimes(sh.core, EffectOf(sh, pc, act), sh.clock);
        LaterTimes(sh'.core, sh.clock, sh'.clock);
      } else {
        NewGenerationTimes(sh.core, EffectOf(sh, pc, act), sh'.clock);
      }
    }
  }

  lemma StartsUnparked(r: Run)
    requires IsRun(r)
    ensures TimesOk(At(r, 0).core, At(r, 0).clock)
  {}

  /** A supervisor reports a refused generation as expired only when its grace has ended, and
      then at once; it reports an integrity failure at once. */
  lemma ReportIsExact(r: Run, i: nat)
    requires IsRun(r) && i < |r.labels| && r.labels[i].action.NextLoopAction?
    requires EventPending(At(r, i).core)
    ensures
      var sh, now := At(r, i), r.labels[i].action.now;
      var reports := PcOf(r.states[i + 1], r.labels[i].thread).LoopEmitting?;
      var graceOver := BlockedAs(sh.core, BlockedPermanent) ==> GraceEnd(sh.core) <= now;
      (reports ==> graceOver) && (now == sh.clock ==> (reports <==> graceOver))
  {
    SupervisorDecides(r, i);
    EventTimes(r, i);
    hide Initial, IsStep;
  }

  /** The time that a release of the claim records for the event. */
  function ReleaseTime(c: Core, now: Time): Time {
    if BlockedAs(c, BlockedPermanent) then Max(GraceEnd(c), now) else now
  }

  /** While a generation stays parked in the same way, its event keeps its time or moves to an
      earlier one, if and only if the step is not the release of a claim that records a
      later time for it. */
  lemma EventMovesEarlier(r: Run, i: nat)
    requires IsRun(r) && i < |r.labels| && Parked(At(r, i).core) && Parked(At(r, i + 1).core)
    requires At(r, i + 1).core.revision == At(r, i).core.revision
    requires At(r, i + 1).core.schedule.disposition == At(r, i).core.schedule.disposition
    ensures
      var c, act := At(r, i).core, r.labels[i].action;
      At(r, i + 1).core.schedule.eventAt <= c.schedule.eventAt <==>
        !(&& ReleasedAs(At(r, i), ActorPc(r, i), act).Some?
          && c.schedule.eventAt < ReleaseTime(c, act.now))
  {
    EventTimes(r, i);
    RunInv(r, i);
    hide Do, Initial, Inv, Apply, EffectOf, Arrives, PartOf, Untouched, StateFits, Timed;
    StepAt(r, i);
    var t, act := r.labels[i].thread, r.labels[i].action;
    StepEvent(At(r, i), t, ActorPc(r, i), act, At(r, i + 1), PcOf(r.states[i + 1], t));
    EffectReleases(At(r, i), ActorPc(r, i), act);
    if ReleasedAs(At(r, i), ActorPc(r, i), act).Some? {
      StatesFit(r.states[i], t);
      ReadingsArePast(At(r, i), t, ActorPc(r, i), act);
      StepsAreTimed(At(r, i), t, ActorPc(r, i), act);
      ReleaseMoves(At(r, i).core, EffectOf(At(r, i), ActorPc(r, i), act), At(r, i).clock);
    } else {
      EventIsEarlier(At(r, i).core, EffectOf(At(r, i), ActorPc(r, i), act));
    }
  }

  lemma EffectReleases(sh: Shared, pc: Pc, act: Action)
    ensures
      var e, released := EffectOf(sh, pc, act), ReleasedAs(sh, pc, act);
      released.Some? <==>
        && e.ClaimFinished? && HoldsRefreshClaim(sh.core, e.claim)
        && (e.result.PermanentResult? || e.result.IntegrityResult?)
    ensures ReleasedAs(sh, pc, act).Some? ==>
              act.FinishLoopAttempt? && EffectOf(sh, pc, act).now == act.now
  {}

  lemma ReleaseMoves(c: Core, e: Event, clock: Time)
    requires e.ClaimFinished? && HoldsRefreshClaim(c, e.claim) && Timed(c, e, clock) && Parked(c)
    requires e.result.PermanentResult? || e.result.IntegrityResult?
    requires Apply(c, e).schedule.disposition == c.schedule.disposition
    ensures Apply(c, e).schedule.eventAt == ReleaseTime(c, e.now)
  {
    EventTimeIs(c, e.now);
    hide SessionExpiredEventTime;
  }

  lemma EventIsEarlier(c: Core, e: Event)
    requires Parked(c) && c.schedule.eventAt > 0 && Apply(c, e).revision == c.revision
    requires Apply(c, e).schedule.disposition == c.schedule.disposition
    requires e.ClaimFinished? && HoldsRefreshClaim(c, e.claim) ==>
               !e.result.PermanentResult? && !e.result.IntegrityResult?
    ensures Apply(c, e).schedule.eventAt <= c.schedule.eventAt
  {}
}
