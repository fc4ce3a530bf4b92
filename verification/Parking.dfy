/**
 Parked generations (pkceflow.go:516-571): once a revision is blocked as permanent or
 as an integrity failure it stays blocked in the same way until the revision advances
 -- except for one step, which is identified exactly.
*/
module Parking {
  import opened Base
  import opened Basics
  import opened ClientCore
  import opened CoreEvents
  import opened Errors
  import opened Places
  import opened Protocol
  import opened Tokens
  import A = Attempts
  import G = Generations

  /** The supervisor releases its claim on a parked generation with the result
      "expired before start" (pkceflow.go:461-462). */
  predicate Unparks(sh: Shared, pc: Pc, act: Action) {
    && act.FinishLoopAttempt?
    && pc.LoopDone?
    && pc.result.ExpiredResult?
    && HoldsRefreshClaim(sh.core, pc.claim)
    && Parked(sh.core)
  }

  /** A failure of the current revision that somebody still carries around agrees
      with how the revision is parked. */
  predicate Agrees(c: Core, revision: nat, failure: Failure) {
    revision == c.revision ==>
      && (failure.IntegrityFailure? ==> BlockedAs(c, BlockedIntegrity))
      && (Permanent(failure) && !failure.IntegrityFailure? ==> BlockedAs(c, BlockedPermanent))
  }

  ghost predicate OutcomeAgrees(sh: Shared, a: nat)
    requires a in sh.attempts
  {
    var at := sh.attempts[a];
    at.outcome.Some? && at.outcome.value.failure.Some? ==>
      Agrees(sh.core, at.revision, at.outcome.value.failure.value)
  }

  /** A running attempt of the current revision means that it is not parked. */
  ghost predicate RunningUnparked(sh: Shared) {
    sh.current.Some? && sh.current.value in sh.attempts
    && sh.attempts[sh.current.value].revision == sh.core.revision ==>
      !Parked(sh.core)
  }

  ghost predicate ParkOk(sh: Shared) {
    && (forall a :: a in sh.attempts ==> OutcomeAgrees(sh, a))
    && RunningUnparked(sh)
  }

  ghost predicate ParkFits(sh: Shared, pc: Pc) {
    && (pc.TokenBlocking? ==> Agrees(sh.core, pc.revision, pc.failure))
    && (pc.LoopDone? && pc.claim.revision == sh.core.revision ==>
          && (pc.result.PermanentResult? ==> BlockedAs(sh.core, BlockedPermanent))
          && (pc.result.IntegrityResult? ==> BlockedAs(sh.core, BlockedIntegrity)))
  }

  /** The disposition of a parked revision does not change. */
  predicate StaysParked(c: Core, c': Core) {
    Parked(c) && c'.revision == c.revision ==>
      Parked(c') && c'.schedule.disposition == c.schedule.disposition
  }

  lemma RelyKeepsParkFits(pc: Pc, sh: Shared, sh': Shared)
    requires ParkFits(sh, pc) && StaysParked(sh.core, sh'.core)
    requires sh.core.revision <= sh'.core.revision
    requires G.SnapshotFits(sh, pc) && G.Keyed(sh)
    ensures ParkFits(sh', pc)
  {}

  /** What a critical section may do to a parked revision. */
  lemma EventParks(c: Core, e: Event)
    requires c.schedule.valid ==> c.schedule.revision == c.revision
    requires Allowed(c, e)
    ensures StaysParked(c, Apply(c, e))
    ensures e.IntegrityBlocked? && c.revision == e.revision ==>
              Parked(c) && Parked(Apply(c, e))
  {}

  /** Parking happens only when an attempt fails, or again. */
  lemma EventUnparked(c: Core, e: Event)
    requires c.schedule.valid ==> c.schedule.revision == c.revision
    requires Allowed(c, e)
    requires !Parked(c) && !e.AttemptFailed?
    ensures !Parked(Apply(c, e))
  {}

  lemma FailureParks(c: Core, revision: nat, snapshot: TokenState, failure: Failure, abandoned: bool, now: Time)
    requires c.revision == revision ==> !Parked(c)
    ensures
      var c' := RecordFailure(c, revision, snapshot, failure, abandoned, now);
      Agrees(c', revision, failure) && c'.revision == c.revision
  {}

  // ----- steps ------------------------------------------------------------------

  /** Outcomes appear only when an attempt finishes, and a new attempt starts only on
      a revision that is not parked. */
  ghost predicate OutcomesKept(sh: Shared, sh': Shared) {
    && (forall a :: a in sh'.attempts && sh'.attempts[a].outcome.Some? ==>
          && a in sh.attempts
          && sh'.attempts[a].outcome == sh.attempts[a].outcome
          && sh'.attempts[a].revision == sh.attempts[a].revision)
    && (sh'.current.Some? && sh'.current.value in sh'.attempts ==>
          || (sh'.current == sh.current
              && sh'.current.value in sh.attempts
              && sh'.attempts[sh'.current.value].revision
                 == sh.attempts[sh.current.value].revision)
          || (!Parked(sh.core) && sh'.core == sh.core))
  }

  lemma AdmittedIsUnparked(c: Core, snapshot: TokenState, revision: nat, claimID: nat, now: Time)
    ensures Admit(c, snapshot, revision, claimID, now).Admitted? ==> !Parked(c)
  {}

  lemma LedKeepsOutcomes(sh: Shared, t: Thread, snapshot: TokenState)
    requires A.AttemptsOk(sh) && !Parked(sh.core)
    ensures OutcomesKept(sh, Lead(sh, t, snapshot))
  {
    hide A.AttemptOk, Parked;
  }

  lemma FollowKeepsOutcomes(sh: Shared, t: Thread, a: nat)
    requires a in sh.attempts
    ensures OutcomesKept(sh, Follow(sh, t, a))
  {
    hide Parked;
  }

  /** Outcomes are read from the attempts alone. */
  lemma OutcomesOfAttempts(sh: Shared, begun: Shared, sh': Shared)
    requires OutcomesKept(sh, begun) && sh' == begun.(ghosts := sh'.ghosts)
    ensures OutcomesKept(sh, sh')
  {
    hide Parked;
  }

  lemma TryOutcomes(sh: Shared, t: Thread, pc: Pc, ctxDone: bool, sh': Shared, pc': Pc)
    requires A.AttemptsOk(sh) && DoJoin(sh, t, pc, TryRefresh(ctxDone)) == Some((sh', pc'))
    ensures OutcomesKept(sh, sh')
  {
    A.TryEffect(sh, t, pc, ctxDone, sh', pc') by { hide *; }
    var s := SnapshotOf(pc).value;
    var claimID := if pc.LoopTrying? then pc.claim.id else 0;
    A.TryBeginCases(sh, t, s.state, s.revision, claimID) by { hide *; }
    hide DoJoin, TryBegin, OutcomesKept, A.AttemptsOk, Parked;
    var (begun, entry) := TryBegin(sh, t, s.state, s.revision, claimID);
    if !entry.Joined? {
      NothingKeepsOutcomes(sh);
    } else if sh.current.None? {
      AdmittedIsUnparked(sh.core, s.state, s.revision, claimID, sh.clock);
      LedKeepsOutcomes(sh, t, s.state);
    } else {
      FollowKeepsOutcomes(sh, t, entry.attempt);
    }
    OutcomesOfAttempts(sh, begun, sh');
  }

  lemma LeaveKeepsOutcomes(sh: Shared, t: Thread, a: nat)
    requires A.AttemptsOk(sh) && a in sh.attempts
    ensures OutcomesKept(sh, Leave(sh, t, a))
  {
    hide A.AttemptOk;
  }

  lemma NothingKeepsOutcomes(sh: Shared)
    requires A.AttemptsOk(sh)
    ensures OutcomesKept(sh, sh)
  {
    hide A.AttemptOk;
  }

  lemma LeaveOutcomes(sh: Shared, t: Thread, pc: Pc, act: Action, sh': Shared, pc': Pc)
    requires A.AttemptsOk(sh) && (act.CancelWait? || act.ReadOutcome?)
    requires DoJoin(sh, t, pc, act) == Some((sh', pc'))
    ensures OutcomesKept(sh, sh')
  {
    hide *;
    A.LeaveCases(sh, t, pc, act, sh', pc');
    if WaitsOn(pc).Some? {
      LeaveKeepsOutcomes(sh, t, WaitsOn(pc).value);
    } else {
      NothingKeepsOutcomes(sh);
    }
  }

  lemma LaunchOutcomes(sh: Shared, t: Thread, pc: Pc, sh': Shared, pc': Pc)
    requires A.AttemptsOk(sh) && DoGrant(sh, t, pc, Launch) == Some((sh', pc'))
    ensures OutcomesKept(sh, sh')
  {}

  lemma CompleteOutcomes(sh: Shared, t: Thread, pc: Pc, sh': Shared, pc': Pc)
    requires A.AttemptsOk(sh) && DoClose(sh, t, pc, CloseComplete) == Some((sh', pc'))
    ensures OutcomesKept(sh, sh')
  {}

  lemma SameOutcomes(sh: Shared, sh': Shared)
    requires A.AttemptsOk(sh) && A.SameAttempts(sh, sh')
    ensures OutcomesKept(sh, sh')
  {}

  lemma StepOutcomes(sh: Shared, t: Thread, pc: Pc, act: Action, sh': Shared, pc': Pc)
    requires A.AttemptsOk(sh) && Do(sh, t, pc, act) == Some((sh', pc')) && !act.FinishAttempt?
    ensures OutcomesKept(sh, sh')
  {
    EveryActionIsGrouped(act);
    hide Do, DoLogin, DoLogout, DoCommit, DoRestore, DoToken, DoJoin, DoGrant, DoRefusal, DoClose,
         DoLoop, DoPersist, DoInit, OutcomesKept, A.AttemptsOk, A.SameAttempts, A.SameDuty;
    Dispatch(sh, t, pc, act);
    match act
    case TryRefresh(ctxDone) => TryOutcomes(sh, t, pc, ctxDone, sh', pc');
    case CancelWait(_) => LeaveOutcomes(sh, t, pc, act, sh', pc');
    case ReadOutcome(_) => LeaveOutcomes(sh, t, pc, act, sh', pc');
    case Launch => LaunchOutcomes(sh, t, pc, sh', pc');
    case CloseComplete => CompleteOutcomes(sh, t, pc, sh', pc');
    case _ =>
      OtherActionsLeaveAttempts(sh, t, pc, act, sh', pc');
      SameOutcomes(sh, sh');
  }

  /** A critical section that EventParks and EventUnparked speak about. */
  predicate Allowed(c: Core, e: Event) {
    && (e.IntegrityBlocked? ==> Agrees(c, e.revision, IntegrityFailure))
    && (e.PermanentBlocked? && e.revision == c.revision ==> Parked(c))
    && (e.AttemptFailed? && e.revision == c.revision ==> !Parked(c))
    && (e.ClaimFinished? && HoldsRefreshClaim(c, e.claim) ==>
          && (e.result.PermanentResult? ==> BlockedAs(c, BlockedPermanent))
          && (e.result.IntegrityResult? ==> BlockedAs(c, BlockedIntegrity))
          && (e.result.ExpiredResult? ==> !Parked(c)))
  }

  lemma EventAllowed(sh: Shared, t: Thread, pc: Pc, act: Action)
    requires Global(sh) && Local(sh, t, pc) && ParkOk(sh) && ParkFits(sh, pc)
    requires !Unparks(sh, pc, act)
    ensures Allowed(sh.core, EffectOf(sh, pc, act))
  {
    hide *;
    match act
    case FinishAttempt(_) => FailureAllowed(sh, t, pc, act);
    case BlockGeneration(_) => BlockAllowed(sh, pc, act);
    case FinishLoopAttempt(_) => ReleaseAllowed(sh, pc, act);
    case _ => OthersAllowed(sh, pc, act);
  }

  lemma BlockAllowed(sh: Shared, pc: Pc, act: Action)
    requires ParkFits(sh, pc) && act.BlockGeneration?
    ensures Allowed(sh.core, EffectOf(sh, pc, act))
  {}

  lemma ReleaseAllowed(sh: Shared, pc: Pc, act: Action)
    requires ParkFits(sh, pc) && act.FinishLoopAttempt? && !Unparks(sh, pc, act)
    ensures Allowed(sh.core, EffectOf(sh, pc, act))
  {
    hide Agrees, Parked;
  }

  lemma OthersAllowed(sh: Shared, pc: Pc, act: Action)
    requires !act.FinishAttempt? && !act.BlockGeneration? && !act.FinishLoopAttempt?
    ensures Allowed(sh.core, EffectOf(sh, pc, act))
  {
    hide Agrees, Parked, BlockedAs, HoldsRefreshClaim;
  }

  lemma FailureEffect(sh: Shared, pc: Pc, act: Action)
    requires act.FinishAttempt?
    ensures
      var e := EffectOf(sh, pc, act);
      || e == Nothing
      || (&& e.AttemptFailed? && pc.Finishing? && pc.attempt in sh.attempts
          && e.revision == sh.attempts[pc.attempt].revision)
  {}

  /** Only a running attempt can fail, and a parked revision has none. */
  lemma FailureAllowed(sh: Shared, t: Thread, pc: Pc, act: Action)
    requires Global(sh) && Local(sh, t, pc) && ParkOk(sh) && act.FinishAttempt?
    ensures Allowed(sh.core, EffectOf(sh, pc, act))
  {
    FailureEffect(sh, pc, act);
    if pc.Finishing? && pc.attempt in sh.attempts {
      RunnerIsCurrent(sh, t, pc) by { hide *; }
    }
    hide Global, Local, Parked, OutcomeAgrees, EffectOf;
  }

  lemma RunnerIsCurrent(sh: Shared, t: Thread, pc: Pc)
    requires Global(sh) && Local(sh, t, pc) && pc.Finishing? && pc.attempt in sh.attempts
    ensures sh.current == Some(pc.attempt)
  {
    assert A.AttemptOk(sh, pc.attempt);
  }

  /** A claimed result, and the failure an on-demand caller is about to report, come
      from a finished attempt or from finding the revision parked. */
  lemma JoinParkFits(sh: Shared, t: Thread, pc: Pc, act: Action, sh': Shared, pc': Pc)
    requires A.JoinFits(sh, t, pc) && ParkOk(sh)
    requires DoJoin(sh, t, pc, act) == Some((sh', pc'))
    ensures ParkFits(sh', pc')
  {
    hide TryBegin;
    match act
    case TryRefresh(_) => TryParkFits(sh, t, pc, act.ctxDone, sh', pc');
    case CancelWait(_) =>
    case ReadOutcome(_) =>
      var a := WaitsOn(pc).value;
      assert OutcomeAgrees(sh, a);
  }

  /** Being turned away as parked agrees with the revision being parked. */
  lemma TryParkFits(sh: Shared, t: Thread, pc: Pc, ctxDone: bool, sh': Shared, pc': Pc)
    requires DoJoin(sh, t, pc, TryRefresh(ctxDone)) == Some((sh', pc'))
    ensures ParkFits(sh', pc')
  {
    G.JoinEffect(sh, t, pc, TryRefresh(ctxDone), sh', pc');
  }

  lemma FinishParks(sh: Shared, t: Thread, pc: Pc, now: Time, sh': Shared, pc': Pc)
    requires Global(sh) && Local(sh, t, pc) && ParkOk(sh)
    requires DoClose(sh, t, pc, FinishAttempt(now)) == Some((sh', pc'))
    ensures ParkOk(sh') && ParkFits(sh', pc') && StaysParked(sh.core, sh'.core)
  {
    FinishNeeds(sh, t, pc, now, sh', pc');
    RunnerIsCurrent(sh, t, pc);
    AttemptsOkOf(sh);
    hide Global, Local;
    FinishedParks(sh, t, pc, now, sh', pc');
  }

  lemma FinishNeeds(sh: Shared, t: Thread, pc: Pc, now: Time, sh': Shared, pc': Pc)
    requires DoClose(sh, t, pc, FinishAttempt(now)) == Some((sh', pc'))
    ensures pc.Finishing? && pc.attempt in sh.attempts
  {}

  lemma AttemptsOkOf(sh: Shared)
    requires Global(sh)
    ensures A.AttemptsOk(sh) && G.Keyed(sh)
  {}

  lemma FinishedParks(sh: Shared, t: Thread, pc: Pc, now: Time, sh': Shared, pc': Pc)
    requires A.AttemptsOk(sh) && G.Keyed(sh) && ParkOk(sh)
    requires DoClose(sh, t, pc, FinishAttempt(now)) == Some((sh', pc'))
    requires sh.current == Some(pc.attempt)
    ensures ParkOk(sh') && ParkFits(sh', pc') && StaysParked(sh.core, sh'.core)
  {
    FinishCloses(sh, t, pc, now, sh', pc');
    hide *;
    FailureKeepsParked(sh, pc.attempt, pc.outcome, now);
    ClosedAgrees(sh, pc.attempt, pc.outcome, now);
  }

  lemma FinishCloses(sh: Shared, t: Thread, pc: Pc, now: Time, sh': Shared, pc': Pc)
    requires DoClose(sh, t, pc, FinishAttempt(now)) == Some((sh', pc'))
    ensures pc.Finishing? && pc.attempt in sh.attempts
    ensures sh' == CloseAttempt(sh, pc.attempt, pc.outcome, now) && ParkFits(sh', pc')
  {
    hide CloseAttempt;
  }

  /** The attempt that fails is the one that was running, so that its revision was not
      parked -- or it is not the current revision, and nothing happens. */
  lemma FailureKeepsParked(sh: Shared, a: nat, outcome: Outcome, now: Time)
    requires G.Keyed(sh) && ParkOk(sh) && sh.current == Some(a) && a in sh.attempts
    ensures
      var core' := CloseAttempt(sh, a, outcome, now).core;
      && StaysParked(sh.core, core') && core'.revision == sh.core.revision
      && (outcome.failure.Some? ==> Agrees(core', sh.attempts[a].revision, outcome.failure.value))
      && (core'.schedule.valid ==> core'.schedule.revision == core'.revision)
  {
    var at := sh.attempts[a];
    if outcome.failure.Some? {
      FailureParks(sh.core, at.revision, at.snapshot, outcome.failure.value, at.cancelled, now);
      FailureElsewhere(sh.core, at.revision, at.snapshot, outcome.failure.value, at.cancelled, now);
    }
    hide RecordFailure, Agrees, OutcomeAgrees;
  }

  lemma FailureElsewhere(c: Core, revision: nat, snapshot: TokenState, failure: Failure, abandoned: bool, now: Time)
    requires c.schedule.valid ==> c.schedule.revision == c.revision
    ensures
      var c' := RecordFailure(c, revision, snapshot, failure, abandoned, now);
      && (revision != c.revision ==> c' == c)
      && (c'.schedule.valid ==> c'.schedule.revision == c'.revision)
  {}

  lemma ClosedAgrees(sh: Shared, a: nat, outcome: Outcome, now: Time)
    requires A.AttemptsOk(sh) && G.Keyed(sh) && ParkOk(sh) && sh.current == Some(a) && a in sh.attempts
    requires
      var core' := CloseAttempt(sh, a, outcome, now).core;
      && StaysParked(sh.core, core') && core'.revision == sh.core.revision
      && (outcome.failure.Some? ==> Agrees(core', sh.attempts[a].revision, outcome.failure.value))
      && (core'.schedule.valid ==> core'.schedule.revision == core'.revision)
    ensures ParkOk(CloseAttempt(sh, a, outcome, now))
  {
    hide RecordFailure, Agrees, StaysParked, Parked;
    var sh' := CloseAttempt(sh, a, outcome, now);
    forall b | b in sh'.attempts ensures OutcomeAgrees(sh', b) {
      assert OutcomeAgrees(sh, b) && A.AttemptOk(sh, b);
      var at := sh.attempts[b];
      if b != a && at.outcome.Some? && at.outcome.value.failure.Some? {
        AgreesKept(sh.core, sh'.core, at.revision, at.outcome.value.failure.value);
      }
    }
  }

  lemma TokenParkFits(sh: Shared, t: Thread, pc: Pc, act: Action, sh': Shared, pc': Pc)
    requires DoToken(sh, t, pc, act) == Some((sh', pc'))
    ensures ParkFits(sh', pc')
  {}

  lemma DecideParkFits(sh: Shared, t: Thread, pc: Pc, now: Time, sh': Shared, pc': Pc)
    requires DoLoop(sh, t, pc, NextLoopAction(now)) == Some((sh', pc'))
    ensures ParkFits(sh', pc')
  {}

  lemma ElsewhereParkFits(sh: Shared, pc: Pc)
    requires !PartOf(pc).Asking? && !PartOf(pc).Claimed?
    ensures ParkFits(sh, pc)
  {}

  lemma ArrivalsAre(act: Action, part: Part)
    requires Arrives(act, part) && (part.Asking? || part.Claimed?)
    ensures
      || act.NextLoopAction? || act.BeginToken? || act.JudgeToken? || act.BlockGeneration?
      || act.DecideToken? || act.TryRefresh? || act.CancelWait? || act.ReadOutcome?
  {}

  lemma JoinFitsOf(sh: Shared, t: Thread, pc: Pc)
    requires Local(sh, t, pc)
    ensures A.JoinFits(sh, t, pc)
  {}

  lemma ActorParkFits(sh: Shared, t: Thread, pc: Pc, act: Action, sh': Shared, pc': Pc)
    requires Global(sh) && Local(sh, t, pc) && ParkOk(sh)
    requires Do(sh, t, pc, act) == Some((sh', pc')) && pc' != pc
    ensures ParkFits(sh', pc')
  {
    EveryActionIsGrouped(act);
    StepEvent(sh, t, pc, act, sh', pc') by { hide *; }
    JoinFitsOf(sh, t, pc) by { hide *; }
    hide *;
    Dispatch(sh, t, pc, act);
    if PartOf(pc').Asking? || PartOf(pc').Claimed? {
      ArrivalsAre(act, PartOf(pc'));
      match act
      case TryRefresh(_) | CancelWait(_) | ReadOutcome(_) => JoinParkFits(sh, t, pc, act, sh', pc');
      case NextLoopAction(now) => DecideParkFits(sh, t, pc, now, sh', pc');
      case BeginToken | JudgeToken(_) | BlockGeneration(_) | DecideToken(_) =>
        TokenParkFits(sh, t, pc, act, sh', pc');
    } else {
      ElsewhereParkFits(sh', pc');
    }
  }

  lemma OthersPark(sh: Shared, e: Event, sh': Shared)
    requires Global(sh) && Global(sh') && ParkOk(sh) && OutcomesKept(sh, sh')
    requires sh'.core == Apply(sh.core, e) && StaysParked(sh.core, sh'.core)
    requires sh.core.revision <= sh'.core.revision <= sh.core.revision + 1
    requires !Parked(sh.core) ==> !Parked(sh'.core)
    ensures ParkOk(sh')
  {
    hide Apply, G.Claims, Agrees;
    forall a | a in sh'.attempts ensures OutcomeAgrees(sh', a) {
      if sh'.attempts[a].outcome.Some? {
        assert OutcomeAgrees(sh, a) && A.AttemptOk(sh, a);
        if sh'.attempts[a].outcome.value.failure.Some? {
          AgreesKept(sh.core, sh'.core, sh.attempts[a].revision, sh.attempts[a].outcome.value.failure.value);
        }
      }
    }
    if sh'.current.Some? && sh'.current.value in sh'.attempts
       && sh'.attempts[sh'.current.value].revision == sh'.core.revision {
      assert A.AttemptOk(sh', sh'.current.value);
      if sh'.current == sh.current {
        assert A.AttemptOk(sh, sh.current.value);
      }
    }
  }

  lemma AgreesKept(c: Core, c': Core, revision: nat, failure: Failure)
    requires Agrees(c, revision, failure) && StaysParked(c, c')
    requires revision <= c.revision <= c'.revision
    requires c'.schedule.valid ==> c'.schedule.revision == c'.revision
    requires c.schedule.valid ==> c.schedule.revision == c.revision
    ensures Agrees(c', revision, failure)
  {}

  lemma StepParks(sh: Shared, t: Thread, pc: Pc, act: Action, sh': Shared, pc': Pc)
    requires Global(sh) && Local(sh, t, pc) && ParkOk(sh) && ParkFits(sh, pc)
    requires Do(sh, t, pc, act) == Some((sh', pc')) && !Unparks(sh, pc, act)
    ensures ParkOk(sh') && ParkFits(sh', pc') && StaysParked(sh.core, sh'.core)
  {
    EveryActionIsGrouped(act);
    assert G.Keyed(sh) && G.SnapshotFits(sh, pc) && A.AttemptsOk(sh);
    hide *;
    Dispatch(sh, t, pc, act);
    match act
    case FinishAttempt(now) => FinishParks(sh, t, pc, now, sh', pc');
    case _ => OtherStepParks(sh, t, pc, act, sh', pc');
  }

  lemma OtherStepParks(sh: Shared, t: Thread, pc: Pc, act: Action, sh': Shared, pc': Pc)
    requires Global(sh) && Local(sh, t, pc) && ParkOk(sh) && ParkFits(sh, pc)
    requires G.Keyed(sh) && G.SnapshotFits(sh, pc) && A.AttemptsOk(sh)
    requires Do(sh, t, pc, act) == Some((sh', pc'))
    requires !Unparks(sh, pc, act) && !act.FinishAttempt?
    ensures ParkOk(sh') && ParkFits(sh', pc') && StaysParked(sh.core, sh'.core)
  {
    hide Do, DoLogin, DoLogout, DoCommit, DoRestore, DoToken, DoJoin, DoGrant, DoRefusal, DoClose,
         DoLoop, DoPersist, DoInit, Apply, PartOf, Arrives, Global, Local, ParkOk, ParkFits,
         Agrees, Parked, BlockedAs, StaysParked, Unparks, Allowed, A.AttemptsOk, G.SnapshotFits, Base.Rely;
    var e := EffectOf(sh, pc, act);
    StepEvent(sh, t, pc, act, sh', pc');
    StepKeeps(sh, t, pc, act, sh', pc');
    StepOutcomes(sh, t, pc, act, sh', pc');
    EventAllowed(sh, t, pc, act);
    EventParks(sh.core, e);
    if !Parked(sh.core) {
      EventUnparked(sh.core, e);
    }
    OthersPark(sh, e, sh');
    if pc' == pc {
      RelyKeepsParkFits(pc, sh, sh');
    } else {
      ActorParkFits(sh, t, pc, act, sh', pc');
    }
  }

  ghost predicate ParkHolds(s: System) {
    && Inv(s)
    && ParkOk(s.shared)
    && forall t :: ParkFits(s.shared, PcOf(s, t))
  }

  lemma SystemStepParks(s: System, t: Thread, act: Action, s': System)
    requires ParkHolds(s) && StepTo(s, t, act) == Some(s')
    requires !Unparks(s.shared, PcOf(s, t), act)
    ensures ParkHolds(s')
    ensures StaysParked(s.shared.core, s'.shared.core)
  {
    SystemStepKeeps(s, t, act, s');
    StepParks(s.shared, t, PcOf(s, t), act, s'.shared, PcOf(s', t));
    hide Do, Global, ParkOk, ParkFits, StaysParked;
    forall u ensures ParkFits(s'.shared, PcOf(s', u)) {
      if u != t {
        BaseFacts(s, u, s');
        RelyKeepsParkFits(PcOf(s, u), s.shared, s'.shared);
      }
    }
  }

  lemma BaseFacts(s: System, u: Thread, s': System)
    requires Inv(s) && Base.Rely(u, s.shared, s'.shared)
    ensures G.SnapshotFits(s.shared, PcOf(s, u)) && G.Keyed(s.shared)
    ensures s.shared.core.revision <= s'.shared.core.revision
  {
    assert Local(s.shared, u, PcOf(s, u));
  }
}
