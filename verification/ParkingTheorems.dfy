/**
 Main results about parked generations (pkceflow.go:516-571), for every run, and the
 run that shows why one hypothesis is needed.
*/
module ParkingTheorems {
  import opened AttemptTheorems
  import opened Base
  import opened Basics
  import opened ClientCore
  import opened CoreEvents
  import opened Errors
  import opened Parking
  import opened Places
  import opened Protocol
  import opened SessionTheorems
  import opened Tokens
  import A = Attempts
  import G = Generations

  // ----- the hypothesis ---------------------------------------------------------

  /** Step `k` releases a claim of the parked revision `revision` as expired before
      start. */
  ghost predicate UnparksAt(r: Run, k: nat, revision: nat)
    requires IsRun(r) && k < |r.labels|
  {
    && At(r, k).core.revision == revision
    && Unparks(At(r, k), ActorPc(r, k), r.labels[k].action)
  }

  ghost predicate NeverUnparked(r: Run, j: nat, revision: nat)
    requires IsRun(r) && j < |r.states|
  {
    forall k :: 0 <= k < j ==> !UnparksAt(r, k, revision)
  }

  // ----- a new generation starts unparked ---------------------------------------

  lemma AdvanceParks(s: System, t: Thread, act: Action, s': System)
    requires Inv(s) && Inv(s') && StepTo(s, t, act) == Some(s')
    requires s'.shared.core.revision != s.shared.core.revision
    ensures ParkHolds(s')
  {
    hide Do, Inv, Global, Local, ParkFits, ParkOk, OutcomeAgrees, Parked, Apply, EffectOf, PartOf,
         Arrives, A.SameAttempts, A.TouchesAttempts;
    var sh, sh', pc, pc' := s.shared, s'.shared, PcOf(s, t), PcOf(s', t);
    StepEvent(sh, t, pc, act, sh', pc');
    AdvancingAction(sh, pc, act);
    ActorElsewhere(act, pc, pc');
    OtherActionsLeaveAttempts(sh, t, pc, act, sh', pc');
    OlderAttempts(s, sh');
    forall u ensures ParkFits(sh', PcOf(s', u)) {
      if u == t {
        if pc' == pc { OlderSnapshot(s, t, sh'); } else { ElsewhereParkFits(sh', pc'); }
      } else {
        OlderSnapshot(s, u, sh');
      }
    }
  }

  lemma AdvancingAction(sh: Shared, pc: Pc, act: Action)
    ensures Apply(sh.core, EffectOf(sh, pc, act)).revision != sh.core.revision ==>
              || act.InstallLogin? || act.ClearState? || act.InstallRestored?
              || act.CommitRefresh? || act.InstallRefusal?
  {}

  lemma ActorElsewhere(act: Action, pc: Pc, pc': Pc)
    requires pc' != pc ==> Arrives(act, PartOf(pc'))
    requires act.InstallLogin? || act.ClearState? || act.InstallRestored?
             || act.CommitRefresh? || act.InstallRefusal?
    ensures !A.TouchesAttempts(act)
    ensures pc' == pc || (!PartOf(pc').Asking? && !PartOf(pc').Claimed?)
  {}

  /** Attempts and readings of an older revision say nothing about the new one. */
  lemma OlderAttempts(s: System, sh': Shared)
    requires Inv(s) && A.SameAttempts(s.shared, sh')
    requires sh'.core.revision == s.shared.core.revision + 1 && !sh'.core.schedule.valid
    ensures ParkOk(sh')
  {
    forall a | a in sh'.attempts ensures OutcomeAgrees(sh', a) {
      assert A.AttemptOk(s.shared, a);
    }
  }

  lemma OlderSnapshot(s: System, u: Thread, sh': Shared)
    requires Inv(s) && sh'.core.revision == s.shared.core.revision + 1
    ensures ParkFits(sh', PcOf(s, u))
  {
    hide A.AttemptFits, A.AttemptsOk;
    assert Local(s.shared, u, PcOf(s, u));
  }

  lemma InitialParks(s: System)
    requires Initial(s)
    ensures ParkHolds(s)
  {
    InitialInv(s);
  }

  lemma StepParksOn(r: Run, k: nat)
    requires IsRun(r) && k < |r.labels| && Inv(r.states[k]) && Inv(r.states[k + 1])
    requires At(r, k).core.revision == At(r, k + 1).core.revision ==>
               ParkHolds(r.states[k]) && !UnparksAt(r, k, At(r, k).core.revision)
    ensures ParkHolds(r.states[k + 1])
  {
    hide Do, Inv, ParkHolds, Unparks, Initial;
    assert IsStep(r, k);
    var t, act := r.labels[k].thread, r.labels[k].action;
    if At(r, k).core.revision == At(r, k + 1).core.revision {
      SystemStepParks(r.states[k], t, act, r.states[k + 1]);
    } else {
      AdvanceParks(r.states[k], t, act, r.states[k + 1]);
    }
  }

  lemma {:induction false} RunParks(r: Run, i: nat)
    requires IsRun(r) && i < |r.states|
    requires NeverUnparked(r, i, At(r, i).core.revision)
    ensures ParkHolds(r.states[i])
  {
    hide Inv, ParkHolds, UnparksAt, Initial, IsStep;
    if i == 0 {
      InitialParks(r.states[0]);
    } else {
      RunInv(r, i - 1);
      RunInv(r, i);
      if At(r, i - 1).core.revision == At(r, i).core.revision {
        RunParks(r, i - 1);
      }
      StepParksOn(r, i - 1);
    }
  }

  lemma {:induction false} RevisionsGrow(r: Run, i: nat, j: nat)
    requires IsRun(r) && i <= j < |r.states|
    ensures At(r, i).core.revision <= At(r, j).core.revision
    decreases j
  {
    hide Do, Initial, Apply, EffectOf, Arrives, PartOf;
    if i < j {
      RevisionsGrow(r, i, j - 1);
      assert IsStep(r, j - 1);
      var t := r.labels[j - 1].thread;
      StepEvent(At(r, j - 1), t, PcOf(r.states[j - 1], t), r.labels[j - 1].action, At(r, j),
                PcOf(r.states[j], t));
    }
  }

  // ----- parking is sticky ------------------------------------------------------

  /** Once parked, a revision stays parked in the same way until it is replaced, no new
      attempt starts, and nobody presents its refresh token -- provided that no claim
      of it is released as expired before start. */
  lemma {:induction false} ParkingIsSticky(r: Run, i: nat, j: nat)
    requires IsRun(r) && i <= j < |r.states|
    requires Parked(At(r, i).core) && At(r, j).core.revision == At(r, i).core.revision
    requires NeverUnparked(r, j, At(r, i).core.revision)
    ensures Parked(At(r, j).core)
    ensures At(r, j).core.schedule.disposition == At(r, i).core.schedule.disposition
    ensures At(r, j).nextAttempt == At(r, i).nextAttempt
    ensures forall t :: Working(PcOf(r.states[j], t)) && t.Goroutine? && t.attempt in At(r, j).attempts ==>
              At(r, j).attempts[t.attempt].revision != At(r, j).core.revision
    decreases j
  {
    hide Do, Inv, Initial, Parked, Unparks, ParkFits, ParkOk, Working;
    RunParks(r, j);
    if i < j {
      RevisionsGrow(r, i, j - 1);
      RevisionsGrow(r, j - 1, j);
      ParkingIsSticky(r, i, j - 1);
      RunParks(r, j - 1);
      assert IsStep(r, j - 1);
      assert !UnparksAt(r, j - 1, At(r, i).core.revision);
      SystemStepParks(r.states[j - 1], r.labels[j - 1].thread, r.labels[j - 1].action, r.states[j]);
      NoOverlap(r, j - 1);
    }
    forall t | Working(PcOf(r.states[j], t)) && t.Goroutine? && t.attempt in At(r, j).attempts
      ensures At(r, j).attempts[t.attempt].revision != At(r, j).core.revision
    {
      WorkerIsCurrent(r.states[j], t);
      IdleWhenParked(r.states[j]);
    }
  }

  lemma IdleWhenParked(s: System)
    requires ParkHolds(s) && Parked(s.shared.core) && s.shared.current.Some?
    requires s.shared.current.value in s.shared.attempts
    ensures s.shared.attempts[s.shared.current.value].revision != s.shared.core.revision
  {}

  /** The exception is exact: at a parked revision, one more step of the same revision
      keeps it parked if and only if the step is not that release. */
  lemma UnparkingIsExact(r: Run, i: nat)
    requires IsRun(r) && i < |r.labels|
    requires Parked(At(r, i).core) && At(r, i + 1).core.revision == At(r, i).core.revision
    ensures Parked(At(r, i + 1).core) <==> !Unparks(At(r, i), ActorPc(r, i), r.labels[i].action)
  {
    hide *;
    StepAt(r, i);
    var t, act := r.labels[i].thread, r.labels[i].action;
    StepEvent(At(r, i), t, ActorPc(r, i), act, At(r, i + 1), PcOf(r.states[i + 1], t));
    EventUnparks(At(r, i).core, EffectOf(At(r, i), ActorPc(r, i), act));
    UnparksByEvent(At(r, i), ActorPc(r, i), act);
  }

  lemma StepAt(r: Run, i: nat)
    requires IsRun(r) && i < |r.labels|
    ensures |r.states| == |r.labels| + 1
    ensures
      var t := r.labels[i].thread;
      Do(At(r, i), t, ActorPc(r, i), r.labels[i].action)
      == Some((At(r, i + 1), PcOf(r.states[i + 1], t)))
  {
    assert IsStep(r, i);
    hide Do, Initial;
  }

  /** The release of a claim as expired before start. */
  predicate ReleasesExpired(c: Core, e: Event) {
    e.ClaimFinished? && e.result.ExpiredResult? && HoldsRefreshClaim(c, e.claim)
  }

  lemma EventUnparks(c: Core, e: Event)
    requires Parked(c) && Apply(c, e).revision == c.revision
    ensures Parked(Apply(c, e)) <==> !ReleasesExpired(c, e)
  {}

  lemma UnparksByEvent(sh: Shared, pc: Pc, act: Action)
    requires Parked(sh.core)
    ensures Unparks(sh, pc, act) <==> ReleasesExpired(sh.core, EffectOf(sh, pc, act))
  {
    hide Parked;
  }

  /** From the moment a revision is parked, it stays parked and no attempt of it starts as
      long as no claim of it is released as expired from then on. */
  lemma {:induction false} ParkedUntilReleased(r: Run, i: nat, j: nat)
    requires IsRun(r) && i <= j < |r.states|
    requires Parked(At(r, i).core) && At(r, j).core.revision == At(r, i).core.revision
    requires forall k :: i <= k < j ==> !UnparksAt(r, k, At(r, i).core.revision)
    ensures Parked(At(r, j).core)
    ensures At(r, j).nextAttempt == At(r, i).nextAttempt
    decreases j
  {
    hide Do, Initial, Parked, Unparks;
    if i < j {
      RevisionsGrow(r, i, j - 1);
      RevisionsGrow(r, j - 1, j);
      ParkedUntilReleased(r, i, j - 1);
      assert !UnparksAt(r, j - 1, At(r, i).core.revision);
      UnparkingIsExact(r, j - 1);
      NoOverlap(r, j - 1);
    }
  }

  // ----- what readers see -------------------------------------------------------

  /** What AuthStatus reports, exactly: valid for tokens with more than thirty seconds to
      live, else in grace while the window from the last authentication is open, with the
      whole days that are left of it; never anything without tokens or for a generation
      parked as an integrity failure. The token read hands out the access token exactly
      when the session is reported usable. */
  lemma ReadersAgree(c: Core, now: Time)
    ensures
      var s, state := Status(c, now), c.state;
      var held := state.accessToken != "" || state.refreshToken != "" || state.idToken != "";
      var readable := held && !BlockedAs(c, BlockedIntegrity);
      && (s.valid <==> readable && now + 30_000_000_000 < state.expiresAt)
      && (s.graceMode <==>
            && readable && state.expiresAt <= now + 30_000_000_000
            && c.grace > 0 && state.lastAuthAt != 0 && now < state.lastAuthAt + c.grace)
      && (s.canUseApp <==> s.valid || s.graceMode)
      && (if s.graceMode then
            var left := state.lastAuthAt + c.grace - now;
            s.graceDaysLeft * 86_400_000_000_000 <= left < (s.graceDaysLeft + 1) * 86_400_000_000_000
          else s.graceDaysLeft == 0)
      && UsableToken(c, now) == if s.canUseApp then state.accessToken else ""
    ensures BlockedAs(c, BlockedIntegrity) ==>
              Status(c, now) == UNUSABLE && UsableToken(c, now) == ""
  {}

  /** Within one generation time only takes away. */
  lemma StatusDegrades(c: Core, now: Time, later: Time)
    requires now <= later
    ensures Status(c, later).valid ==> Status(c, now).valid
    ensures Status(c, later).canUseApp ==> Status(c, now).canUseApp
    ensures Status(c, later).graceMode && !Status(c, now).valid ==>
              Status(c, now).graceMode
              && Status(c, later).graceDaysLeft <= Status(c, now).graceDaysLeft
  {
    ReadersAgree(c, now);
    ReadersAgree(c, later);
  }

  lemma KeyedSchedule(s: System)
    requires Inv(s)
    ensures s.shared.core.schedule.valid ==> s.shared.core.schedule.revision == s.shared.core.revision
  {}
}
