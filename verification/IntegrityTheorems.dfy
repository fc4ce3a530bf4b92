/**
 Main results about integrity failures (refresh.go:329-339, pkceflow.go:525-539,
 accesstoken.go:32-79), for every run: how long a failed generation stays blocked, and
 exactly which steps answer a call with a token.
*/
module IntegrityTheorems {
  import opened Base
  import opened Basics
  import opened ClientCore
  import opened CoreEvents
  import opened Errors
  import opened Parking
  import opened ParkingTheorems
  import opened Places
  import opened Protocol
  import opened SessionTheorems
  import opened Tokens
  import A = Attempts
  import G = Generations

  // ----- failing ----------------------------------------------------------------

  /** At step `k` an attempt of the current revision ends in an integrity failure. */
  ghost predicate FailsAt(r: Run, k: nat, revision: nat)
    requires IsRun(r) && k < |r.labels|
  {
    Fails(At(r, k), ActorPc(r, k), r.labels[k].action) && At(r, k).core.revision == revision
  }

  ghost predicate Fails(sh: Shared, pc: Pc, act: Action) {
    && act.FinishAttempt? && pc.Finishing? && pc.attempt in sh.attempts
    && pc.outcome.failure == Some(IntegrityFailure)
    && sh.attempts[pc.attempt].revision == sh.core.revision
  }

  lemma FailureIsRecorded(sh: Shared, t: Thread, pc: Pc, act: Action, sh': Shared, pc': Pc)
    requires Do(sh, t, pc, act) == Some((sh', pc'))
    ensures sh'.ghosts.integrityFailed ==
              sh.ghosts.integrityFailed + (if Fails(sh, pc, act) then {sh.core.revision} else {})
    ensures Fails(sh, pc, act) ==>
              BlockedAs(sh'.core, BlockedIntegrity) && sh'.core.revision == sh.core.revision
  {
    EveryActionIsGrouped(act);
    hide *;
    StepEvent(sh, t, pc, act, sh', pc');
    Dispatch(sh, t, pc, act);
    if act.FinishAttempt? {
      FinishRecords(sh, t, pc, act, sh', pc');
    } else {
      OnlyFinishFails(sh, pc, act, sh');
    }
  }

  lemma OnlyFinishFails(sh: Shared, pc: Pc, act: Action, sh': Shared)
    requires Untouched(sh, act, sh') && !act.FinishAttempt?
    ensures !Fails(sh, pc, act) && sh'.ghosts.integrityFailed == sh.ghosts.integrityFailed
  {}

  lemma FinishRecords(sh: Shared, t: Thread, pc: Pc, act: Action, sh': Shared, pc': Pc)
    requires act.FinishAttempt? && DoClose(sh, t, pc, act) == Some((sh', pc'))
    ensures sh'.ghosts.integrityFailed ==
              sh.ghosts.integrityFailed + (if Fails(sh, pc, act) then {sh.core.revision} else {})
    ensures Fails(sh, pc, act) ==>
              BlockedAs(sh'.core, BlockedIntegrity) && sh'.core.revision == sh.core.revision
  {
    hide BlockPermanent, MarkInconclusive;
  }

  /** The recorded set is the history of these steps. */
  lemma {:induction false} FailedIsHistory(r: Run, i: nat, revision: nat)
    requires IsRun(r) && i < |r.states|
    ensures revision in At(r, i).ghosts.integrityFailed <==>
              exists k: nat :: k < i && FailsAt(r, k, revision)
  {
    hide Do, Initial, Fails;
    if i == 0 {
      NothingFailed(r);
    } else {
      FailedIsHistory(r, i - 1, revision);
      StepAt(r, i - 1);
      var t := r.labels[i - 1].thread;
      FailureIsRecorded(At(r, i - 1), t, ActorPc(r, i - 1), r.labels[i - 1].action, At(r, i),
                        PcOf(r.states[i], t));
      if FailsAt(r, i - 1, revision) {
        assert revision in At(r, i).ghosts.integrityFailed;
      }
    }
  }

  lemma NothingFailed(r: Run)
    requires IsRun(r)
    ensures At(r, 0).ghosts.integrityFailed == {}
  {}

  // ----- a claim is released as expired at most once ----------------------------

  /** No claim can be given out for this revision any more. */
  predicate Spent(c: Core) {
    && c.schedule.valid && c.schedule.revision == c.revision
    && !c.schedule.disposition.Active? && c.schedule.claimID == 0
  }

  lemma EventKeepsSpent(c: Core, e: Event)
    requires Spent(c) && Apply(c, e).revision == c.revision
    requires e.ClaimFinished? ==> e.claim.id != 0
    ensures Spent(Apply(c, e))
  {}

  lemma ReleaseSpends(c: Core, e: Event)
    requires ReleasesExpired(c, e) && e.claim.id != 0
    ensures Spent(Apply(c, e))
  {}

  lemma ClaimsAreNumbered(s: System, t: Thread, act: Action)
    requires Inv(s)
    ensures
      var e := EffectOf(s.shared, PcOf(s, t), act);
      e.ClaimFinished? ==> e.claim.id != 0
  {
    hide A.AttemptFits, A.AttemptsOk;
    assert Local(s.shared, t, PcOf(s, t));
  }

  /** What every step of a run gives: its effect, and numbered claims. */
  lemma EventAt(r: Run, i: nat)
    requires IsRun(r) && i < |r.labels|
    ensures
      var e := EffectOf(At(r, i), ActorPc(r, i), r.labels[i].action);
      && At(r, i + 1).core == Apply(At(r, i).core, e)
      && (e.ClaimFinished? ==> e.claim.id != 0)
  {
    hide Do, Inv, Initial, Apply, EffectOf, Arrives, PartOf, Untouched;
    RunInv(r, i);
    StepAt(r, i);
    var t, act := r.labels[i].thread, r.labels[i].action;
    StepEvent(At(r, i), t, ActorPc(r, i), act, At(r, i + 1), PcOf(r.states[i + 1], t));
    ClaimsAreNumbered(r.states[i], t, act);
  }

  lemma {:induction false} SpentStays(r: Run, k: nat, i: nat)
    requires IsRun(r) && k <= i < |r.states| && Spent(At(r, k).core)
    requires At(r, i).core.revision == At(r, k).core.revision
    ensures Spent(At(r, i).core)
    decreases i
  {
    hide Apply, EffectOf, Spent, Initial, IsStep;
    if k < i {
      RevisionsGrow(r, k, i - 1);
      RevisionsGrow(r, i - 1, i);
      SpentStays(r, k, i - 1);
      EventAt(r, i - 1);
      EventKeepsSpent(At(r, i - 1).core,
                      EffectOf(At(r, i - 1), ActorPc(r, i - 1), r.labels[i - 1].action));
    }
  }

  /** After an un-parking release the revision is spent. */
  lemma UnparkingSpends(r: Run, k: nat, revision: nat)
    requires IsRun(r) && k < |r.labels| && UnparksAt(r, k, revision)
    ensures Spent(At(r, k + 1).core) && At(r, k + 1).core.revision == revision
  {
    hide Apply, EffectOf, Spent, Initial, IsStep;
    var e := EffectOf(At(r, k), ActorPc(r, k), r.labels[k].action);
    EventAt(r, k);
    UnparksByEvent(At(r, k), ActorPc(r, k), r.labels[k].action);
    ReleaseSpends(At(r, k).core, e);
    ReleaseKeepsRevision(At(r, k).core, e);
  }

  lemma ReleaseKeepsRevision(c: Core, e: Event)
    ensures e.ClaimFinished? ==> Apply(c, e).revision == c.revision
  {}

  /** While a claim of a revision is out, the revision has not been un-parked. */
  lemma ClaimedIsNotReleased(r: Run, i: nat)
    requires IsRun(r) && i < |r.states|
    requires At(r, i).core.schedule.valid && At(r, i).core.schedule.claimID != 0
    ensures NeverUnparked(r, i, At(r, i).core.revision)
  {
    hide Initial, IsStep, UnparksAt;
    var revision := At(r, i).core.revision;
    forall k | 0 <= k < i ensures !UnparksAt(r, k, revision) {
      if UnparksAt(r, k, revision) {
        UnparkingSpends(r, k, revision);
        SpentStays(r, k + 1, i);
      }
    }
  }

  /** A revision is un-parked at most once. */
  lemma UnparkedOnce(r: Run, k: nat, m: nat, revision: nat)
    requires IsRun(r) && k < |r.labels| && m < |r.labels|
    requires UnparksAt(r, k, revision) && UnparksAt(r, m, revision)
    ensures k == m
  {
    UnparkingHolds(r, k, revision);
    UnparkingHolds(r, m, revision);
    hide Initial, IsStep, UnparksAt;
    ClaimedIsNotReleased(r, k);
    ClaimedIsNotReleased(r, m);
  }

  lemma UnparkingHolds(r: Run, k: nat, revision: nat)
    requires IsRun(r) && k < |r.labels| && UnparksAt(r, k, revision)
    ensures At(r, k).core.revision == revision
    ensures At(r, k).core.schedule.valid && At(r, k).core.schedule.claimID != 0
  {
    UnparkedByHolder(At(r, k), ActorPc(r, k), r.labels[k].action);
    EventAt(r, k);
  }

  lemma UnparkedByHolder(sh: Shared, pc: Pc, act: Action)
    requires Unparks(sh, pc, act)
    ensures
      var e := EffectOf(sh, pc, act);
      && e.ClaimFinished? && sh.core.schedule.valid && sh.core.schedule.claimID == e.claim.id
  {}

  // ----- the block stands -------------------------------------------------------

  /** Only a held claim that ends in a permanent failure, or expired, could change it. */
  lemma EventKeepsIntegrity(c: Core, e: Event)
    requires BlockedAs(c, BlockedIntegrity) && Apply(c, e).revision == c.revision
    requires !ReleasesExpired(c, e)
    requires !(e.ClaimFinished? && e.result.PermanentResult? && HoldsRefreshClaim(c, e.claim))
    ensures BlockedAs(Apply(c, e), BlockedIntegrity)
  {}

  lemma NoPermanentRelease(r: Run, i: nat)
    requires IsRun(r) && i < |r.labels| && BlockedAs(At(r, i).core, BlockedIntegrity)
    ensures
      var e := EffectOf(At(r, i), ActorPc(r, i), r.labels[i].action);
      !(e.ClaimFinished? && e.result.PermanentResult? && HoldsRefreshClaim(At(r, i).core, e.claim))
  {
    hide Apply, Initial, IsStep, Inv, ParkOk, NeverUnparked;
    var e := EffectOf(At(r, i), ActorPc(r, i), r.labels[i].action);
    if e.ClaimFinished? && e.result.PermanentResult? && HoldsRefreshClaim(At(r, i).core, e.claim) {
      EventAt(r, i);
      ClaimedIsNotReleased(r, i);
      RunParks(r, i);
      PermanentFits(r.states[i], r.labels[i].thread, r.labels[i].action);
    }
  }

  lemma PermanentFits(s: System, t: Thread, act: Action)
    requires ParkHolds(s)
    ensures
      var e := EffectOf(s.shared, PcOf(s, t), act);
      e.ClaimFinished? && e.result.PermanentResult? && HoldsRefreshClaim(s.shared.core, e.claim) ==>
        BlockedAs(s.shared.core, BlockedPermanent)
  {
    assert ParkFits(s.shared, PcOf(s, t));
  }

  /** At a generation blocked as an integrity failure, one more step of the same revision
      keeps it blocked so if and only if it is not the un-parking release. */
  lemma IntegrityBlockIsExact(r: Run, i: nat)
    requires IsRun(r) && i < |r.labels| && BlockedAs(At(r, i).core, BlockedIntegrity)
    requires At(r, i + 1).core.revision == At(r, i).core.revision
    ensures BlockedAs(At(r, i + 1).core, BlockedIntegrity) <==>
              !Unparks(At(r, i), ActorPc(r, i), r.labels[i].action)
  {
    BlockedIsParked(At(r, i).core);
    BlockedIsParked(At(r, i + 1).core);
    hide Apply, EffectOf, Initial, IsStep, BlockedAs, Parked, Unparks, ReleasesExpired;
    EventAt(r, i);
    UnparkingIsExact(r, i);
    NoPermanentRelease(r, i);
    UnparksByEvent(At(r, i), ActorPc(r, i), r.labels[i].action);
    if !Unparks(At(r, i), ActorPc(r, i), r.labels[i].action) {
      EventKeepsIntegrity(At(r, i).core, EffectOf(At(r, i), ActorPc(r, i), r.labels[i].action));
    }
  }

  lemma BlockedIsParked(c: Core)
    ensures BlockedAs(c, BlockedIntegrity) ==> Parked(c)
  {}

  /** From an integrity failure on, as long as its revision is current and is not
      un-parked, the session is blocked and unusable at every moment. */
  lemma {:induction false} FailureStands(r: Run, k: nat, i: nat)
    requires IsRun(r) && k < i < |r.states| && FailsAt(r, k, At(r, i).core.revision)
    requires forall m :: k < m < i ==> !UnparksAt(r, m, At(r, i).core.revision)
    ensures BlockedAs(At(r, i).core, BlockedIntegrity)
    ensures forall now: Time ::
              Status(At(r, i).core, now) == UNUSABLE && UsableToken(At(r, i).core, now) == ""
    decreases i
  {
    StandsBlocked(r, k, i);
    forall now: Time
      ensures Status(At(r, i).core, now) == UNUSABLE && UsableToken(At(r, i).core, now) == ""
    {
      ReadersAgree(At(r, i).core, now);
    }
    hide Status, UsableToken, IsRun;
  }

  lemma {:induction false} StandsBlocked(r: Run, k: nat, i: nat)
    requires IsRun(r) && k < i < |r.states| && FailsAt(r, k, At(r, i).core.revision)
    requires forall m :: k < m < i ==> !UnparksAt(r, m, At(r, i).core.revision)
    ensures BlockedAs(At(r, i).core, BlockedIntegrity)
    decreases i
  {
    hide Do, Initial, BlockedAs, Fails, Unparks;
    RevisionsGrow(r, k, i - 1);
    RevisionsGrow(r, i - 1, i);
    if k == i - 1 {
      StepAt(r, k);
      var t := r.labels[k].thread;
      FailureIsRecorded(At(r, k), t, ActorPc(r, k), r.labels[k].action, At(r, i), PcOf(r.states[i], t));
    } else {
      StandsBlocked(r, k, i - 1);
      assert !UnparksAt(r, i - 1, At(r, i).core.revision);
      IntegrityBlockIsExact(r, i - 1);
    }
  }

  // ----- answers ----------------------------------------------------------------

  /** Step `i` answers an AccessToken call with a token. */
  ghost predicate AnswersWithToken(r: Run, i: nat)
    requires IsRun(r) && i < |r.labels|
  {
    Answers(ActorPc(r, i), PcOf(r.states[i + 1], r.labels[i].thread))
  }

  predicate Answers(pc: Pc, pc': Pc) {
    pc' != pc && pc'.Answered? && pc'.token != ""
  }

  /** The answers that do not look at the current disposition: a call that finds its own
      earlier reading fresh; one whose revision is no longer current and which is given
      whatever memory holds (refresh.go:209-220, accesstoken.go:58-60); and one whose
      attempt succeeded, which is given the same (refresh.go:299-307). */
  ghost predicate PassesIntegrity(sh: Shared, pc: Pc, act: Action) {
    || (&& act.JudgeToken? && pc.TokenRead?
        && Fresh(pc.snapshot, act.now) && pc.snapshot.accessToken != "")
    || (&& act.TryRefresh? && pc.TokenTrying?
        && pc.revision != sh.core.revision && sh.core.state.accessToken != "")
    || (&& act.ReadOutcome? && pc.TokenWaiting?
        && pc.attempt in sh.attempts && sh.attempts[pc.attempt].outcome.Some?
        && sh.attempts[pc.attempt].outcome.value.failure.None?
        && sh.core.state.accessToken != "")
  }

  /** The final decision (accesstoken.go:85-101) finds the current generation unblocked, and
      fresh or within grace. */
  predicate DecidesUsable(sh: Shared, pc: Pc, act: Action) {
    && act.DecideToken? && pc.TokenDeciding?
    && !BlockedAs(sh.core, BlockedIntegrity)
    && (Fresh(sh.core.state, act.now) || InGrace(sh.core.state, sh.core.grace, act.now))
    && sh.core.state.accessToken != ""
  }

  /** The token is that of the call's own reading when that was fresh, else the one in
      memory. */
  predicate CarriesToken(sh: Shared, pc: Pc, act: Action, pc': Pc) {
    Answers(pc, pc') ==>
      if act.JudgeToken? then pc.TokenRead? && pc'.token == pc.snapshot.accessToken
      else pc'.token == sh.core.state.accessToken
  }

  /** In every state of every run, a step answers a call with a token if and only if it is
      one of these; and the token is the one in memory, or the one the call read. */
  lemma AnswersAreExact(r: Run, i: nat)
    requires IsRun(r) && i < |r.labels|
    ensures AnswersWithToken(r, i) <==>
              || PassesIntegrity(At(r, i), ActorPc(r, i), r.labels[i].action)
              || DecidesUsable(At(r, i), ActorPc(r, i), r.labels[i].action)
    ensures CarriesToken(At(r, i), ActorPc(r, i), r.labels[i].action,
                         PcOf(r.states[i + 1], r.labels[i].thread))
  {
    hide Do, Inv, Initial, IsStep, PassesIntegrity, DecidesUsable, Answers, CarriesToken,
         G.Keyed, G.SnapshotFits;
    RunInv(r, i);
    ReadingFits(r.states[i], r.labels[i].thread);
    StepAt(r, i);
    var t := r.labels[i].thread;
    StepAnswers(At(r, i), t, ActorPc(r, i), r.labels[i].action, At(r, i + 1),
                PcOf(r.states[i + 1], t));
  }

  lemma ReadingFits(s: System, t: Thread)
    requires Inv(s)
    ensures G.Keyed(s.shared) && G.SnapshotFits(s.shared, PcOf(s, t))
  {
    assert Local(s.shared, t, PcOf(s, t));
  }

  lemma StepAnswers(sh: Shared, t: Thread, pc: Pc, act: Action, sh': Shared, pc': Pc)
    requires G.Keyed(sh) && G.SnapshotFits(sh, pc) && Do(sh, t, pc, act) == Some((sh', pc'))
    ensures Answers(pc, pc') <==> PassesIntegrity(sh, pc, act) || DecidesUsable(sh, pc, act)
    ensures CarriesToken(sh, pc, act, pc')
  {
    EveryActionIsGrouped(act);
    hide *;
    StepEvent(sh, t, pc, act, sh', pc');
    Dispatch(sh, t, pc, act);
    AnsweringActions(sh, pc, act, pc');
    match GroupOf(act)
    case TokenGroup => TokenAnswers(sh, t, pc, act, sh', pc');
    case JoinGroup => JoinAnswers(sh, t, pc, act, sh', pc');
    case _ =>
  }

  lemma AnsweringActions(sh: Shared, pc: Pc, act: Action, pc': Pc)
    requires pc' != pc ==> Arrives(act, PartOf(pc'))
    ensures !Answers(pc, pc') ==> CarriesToken(sh, pc, act, pc')
    ensures PassesIntegrity(sh, pc, act) || DecidesUsable(sh, pc, act) || Answers(pc, pc') ==>
              || act.BeginToken? || act.JudgeToken? || act.BlockGeneration? || act.DecideToken?
              || act.TryRefresh? || act.CancelWait? || act.ReadOutcome?
  {}

  lemma TokenAnswers(sh: Shared, t: Thread, pc: Pc, act: Action, sh': Shared, pc': Pc)
    requires DoToken(sh, t, pc, act) == Some((sh', pc'))
    ensures Answers(pc, pc') <==> PassesIntegrity(sh, pc, act) || DecidesUsable(sh, pc, act)
    ensures CarriesToken(sh, pc, act, pc')
  {
    hide BlockIntegrity, BlockPermanent;
  }

  lemma JoinAnswers(sh: Shared, t: Thread, pc: Pc, act: Action, sh': Shared, pc': Pc)
    requires G.Keyed(sh) && G.SnapshotFits(sh, pc) && DoJoin(sh, t, pc, act) == Some((sh', pc'))
    ensures Answers(pc, pc') <==> PassesIntegrity(sh, pc, act) || DecidesUsable(sh, pc, act)
    ensures CarriesToken(sh, pc, act, pc')
  {}

  /** The revision has been un-parked before state `i`. */
  ghost predicate ReleasedBefore(r: Run, i: nat, revision: nat)
    requires IsRun(r) && i < |r.states|
  {
    exists m: nat :: m < i && UnparksAt(r, m, revision)
  }

  /** While a revision that failed its integrity check is current, a call is answered with a
      token exactly by the steps above. Before the un-parking release nothing is decided
      usable, and every new call and every final decision is answered with the empty
      string; only after it the final decision can hand out the token again. */
  lemma FailedAnswersAreExact(r: Run, i: nat)
    requires IsRun(r) && i < |r.labels|
    requires At(r, i).core.revision in At(r, i).ghosts.integrityFailed
    ensures AnswersWithToken(r, i) <==>
              || PassesIntegrity(At(r, i), ActorPc(r, i), r.labels[i].action)
              || (DecidesUsable(At(r, i), ActorPc(r, i), r.labels[i].action)
                  && ReleasedBefore(r, i, At(r, i).core.revision))
    ensures !ReleasedBefore(r, i, At(r, i).core.revision) ==>
              && BlockedAs(At(r, i).core, BlockedIntegrity)
              && (forall now: Time :: Status(At(r, i).core, now) == UNUSABLE
                                      && UsableToken(At(r, i).core, now) == "")
              && (r.labels[i].action.BeginToken? || r.labels[i].action.DecideToken? ==>
                    PcOf(r.states[i + 1], r.labels[i].thread) == Answered(""))
  {
    hide Do, Initial, IsStep, PassesIntegrity, AnswersWithToken, FailsAt, UnparksAt, Status,
         UsableToken;
    AnswersAreExact(r, i);
    if !ReleasedBefore(r, i, At(r, i).core.revision) {
      FailedIsHistory(r, i, At(r, i).core.revision);
      var k: nat :| k < i && FailsAt(r, k, At(r, i).core.revision);
      FailureStands(r, k, i);
      StepAt(r, i);
      var t := r.labels[i].thread;
      AnsweredEmpty(At(r, i), t, ActorPc(r, i), r.labels[i].action, At(r, i + 1),
                    PcOf(r.states[i + 1], t));
    }
  }

  lemma AnsweredEmpty(sh: Shared, t: Thread, pc: Pc, act: Action, sh': Shared, pc': Pc)
    requires Do(sh, t, pc, act) == Some((sh', pc')) && BlockedAs(sh.core, BlockedIntegrity)
    ensures act.BeginToken? || act.DecideToken? ==> pc' == Answered("")
  {
    EveryActionIsGrouped(act);
    Dispatch(sh, t, pc, act);
    hide Do, GroupOf;
  }
}
