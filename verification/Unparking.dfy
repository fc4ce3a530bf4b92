/**
 A concrete run in which a parked revision is presented to the provider again
 (pkceflow.go:461-462): the supervisor claims a refresh before expiry, an on-demand
 attempt of the same generation is refused after expiry, and the supervisor then
 releases its claim as expired before start.
*/
module Unparking {
  import opened Basics
  import opened ClientCore
  import opened Errors
  import opened ParkingTheorems
  import opened Protocol
  import opened SessionTheorems
  import opened StageTimes
  import opened Tokens

  const HELD := TokenState("access", "refresh", "id", 101 * SECOND, 1 * SECOND)
  const GRACE := DAY
  const SUBJECT: Decoder := text => Some(text)
  const FOUND := Discovery(1, 1, 1, "", "")
  const SUPERVISOR := Caller(0)
  const USER := Caller(1)
  const LATER_USER := Caller(2)
  const CLAIMED := Claim(1, HELD, 1, 1)

  function Last(r: Run): System
    requires |r.states| > 0
  {
    r.states[|r.states| - 1]
  }

  /** A run can go on with any available step. */
  lemma Extend(r: Run, t: Thread, act: Action) returns (longer: Run)
    requires IsRun(r) && StepTo(Last(r), t, act).Some?
    ensures IsRun(longer) && |longer.states| == |r.states| + 1 >= 2
    ensures Last(longer) == StepTo(Last(r), t, act).value
    ensures r.states <= longer.states && longer.labels == r.labels + [Label(t, act)]
  {
    hide Do, StepTo, Initial;
    longer := Run(r.states + [StepTo(Last(r), t, act).value], r.labels + [Label(t, act)]);
    forall i | 0 <= i < |longer.labels| ensures IsStep(longer, i) {
      if i < |r.labels| { assert IsStep(r, i); }
    }
  }

  // ----- the states on the way --------------------------------------------------

  function Restored(): Shared {
    Install(NewSystem(GRACE, SUBJECT, HELD, 60 * SECOND).shared, HELD)
  }

  function Initialized(): Shared {
    var sh := Restored();
    sh.(core := CommitDiscovery(sh.core, FOUND), initSeq := 1,
        ghosts := sh.ghosts.(initCommits := [1]))
  }

  function ClaimedSchedule(): Schedule {
    FreshSchedule(1).(claimID := 1)
  }

  function Claimed(): Shared {
    var sh := Initialized();
    sh.(core := Signal(sh.core.(refreshClaimSeq := 1, schedule := ClaimedSchedule())),
        ghosts := sh.ghosts.(refreshHolder := Some(SUPERVISOR)))
  }

  function Asked(): Shared {
    Lead(Claimed().(clock := 80 * SECOND), USER, HELD)
  }

  function Refused(): Shared {
    var sh := Asked();
    sh.(clock := 110 * SECOND,
        attempts := map[0 := sh.attempts[0].(launched := true)])
  }

  /** How the attempt ends: the client registration is refused, or the answer fails its
      integrity check. Both park the generation. */
  type Ending = f: Failure | f == ClientRefused || f == IntegrityFailure witness ClientRefused

  function EndOf(f: Ending): Outcome {
    Outcome(ZERO, Some(f))
  }

  function ParkedThen(f: Ending): Shared {
    CloseAttempt(Refused(), 0, EndOf(f), 110 * SECOND)
  }

  function Unparked(f: Ending): Shared {
    ReleaseClaim(ParkedThen(f), CLAIMED, ExpiredResult, 110 * SECOND)
  }

  // ----- the run ----------------------------------------------------------------

  lemma ReachLoading() returns (r: Run)
    ensures IsRun(r)
    ensures Last(r) == System(NewSystem(GRACE, SUBJECT, HELD, 60 * SECOND).shared.(commitMu := Some(SUPERVISOR)),
                              map[SUPERVISOR := RestoreLoading])
  {
    hide DoLogin, DoLogout, DoCommit, DoToken, DoJoin, DoGrant, DoRefusal, DoClose, DoLoop,
         DoPersist, DoInit;
    var s := NewSystem(GRACE, SUBJECT, HELD, 60 * SECOND);
    r := Run([s], []);
    assert Initial(s);
    hide Initial;
    r := Extend(r, SUPERVISOR, BeginRestore);
  }

  lemma ReachRestored() returns (r: Run)
    ensures IsRun(r) && Last(r) == System(Restored(), map[SUPERVISOR := Idle])
  {
    hide IsRun;
    r := ReachLoading();
    hide DoLogin, DoLogout, DoCommit, DoToken, DoJoin, DoGrant, DoRefusal, DoClose, DoLoop,
         DoPersist, DoInit;
    r := Extend(r, SUPERVISOR, LoadReturns(false));
    r := Extend(r, SUPERVISOR, InstallRestored);
  }

  lemma ReachDiscovering() returns (r: Run)
    ensures IsRun(r)
    ensures Last(r) == System(Restored().(initSeq := 1, initOperation := Some(1)),
                              map[SUPERVISOR := Discovering(1)])
  {
    hide IsRun;
    r := ReachRestored();
    hide DoLogin, DoLogout, DoCommit, DoToken, DoJoin, DoGrant, DoRefusal, DoClose, DoRestore,
         DoPersist, DoLoop;
    r := Extend(r, SUPERVISOR, BeginInit);
  }

  lemma ReachInitialized() returns (r: Run)
    ensures IsRun(r) && Last(r) == System(Initialized(), map[SUPERVISOR := Idle])
  {
    hide IsRun;
    r := ReachDiscovering();
    hide DoLogin, DoLogout, DoCommit, DoToken, DoJoin, DoGrant, DoRefusal, DoClose, DoRestore,
         DoPersist, DoLoop;
    r := Extend(r, SUPERVISOR, CommitInit(FOUND, true));
  }

  lemma FirstStageDue()
    ensures StageTime(HELD, 1) == Some(51 * SECOND)
  {
    assert Lifetime(HELD) == 100 * SECOND;
    assert Halved(100 * SECOND, 1) == Halved(100 * SECOND, 0) / 2;
  }

  lemma ReachLooping() returns (r: Run)
    ensures IsRun(r) && Last(r) == System(Initialized(), map[SUPERVISOR := LoopTop])
  {
    hide IsRun;
    r := ReachInitialized();
    hide DoLogin, DoLogout, DoCommit, DoToken, DoJoin, DoGrant, DoRefusal, DoClose, DoRestore,
         DoPersist, DoInit, NextRefresh, FinishClaim, Initialized;
    r := Extend(r, SUPERVISOR, StartLoop);
  }

  lemma ReachClaimed() returns (r: Run)
    ensures IsRun(r) && Last(r) == System(Claimed(), map[SUPERVISOR := LoopTrying(CLAIMED)])
  {
    hide IsRun;
    r := ReachLooping();
    hide DoLogin, DoLogout, DoCommit, DoToken, DoJoin, DoGrant, DoRefusal, DoClose, DoRestore,
         DoPersist, DoInit, FinishClaim, StageTime;
    FirstStageDue();
    r := Extend(r, SUPERVISOR, NextLoopAction(60 * SECOND));
  }

  lemma ClaimedFacts()
    ensures
      var sh := Claimed();
      && sh.core.state == HELD && sh.core.revision == 1 && sh.core.discovery.Some?
      && !Parked(sh.core) && sh.clock == 60 * SECOND
  {}

  lemma ReachTrying() returns (r: Run)
    ensures IsRun(r)
    ensures Last(r) == System(Claimed().(clock := 80 * SECOND),
                              map[SUPERVISOR := LoopTrying(CLAIMED), USER := TokenTrying(HELD, 1)])
  {
    hide IsRun;
    r := ReachClaimed();
    ClaimedFacts();
    hide DoLogin, DoLogout, DoCommit, DoLoop, DoGrant, DoRefusal, DoClose, DoRestore, DoPersist,
         DoInit, DoJoin, NextRefresh, Claimed;
    r := Extend(r, USER, Tick(20 * SECOND));
    r := Extend(r, USER, BeginToken);
    r := Extend(r, USER, JudgeToken(80 * SECOND));
  }

  lemma ReachAsked() returns (r: Run)
    ensures IsRun(r)
    ensures Last(r) == System(Asked(), map[SUPERVISOR := LoopTrying(CLAIMED),
                                           USER := TokenWaiting(0, HELD, 1)])
  {
    hide IsRun;
    r := ReachTrying();
    hide DoLogin, DoLogout, DoCommit, DoLoop, DoGrant, DoRefusal, DoClose, DoRestore, DoPersist,
         DoInit, DoToken;
    r := Extend(r, USER, TryRefresh(false));
  }

  lemma ReachLaunched() returns (r: Run)
    ensures IsRun(r)
    ensures Last(r) == System(Refused().(clock := 80 * SECOND),
                              map[SUPERVISOR := LoopTrying(CLAIMED),
                                  USER := TokenWaiting(0, HELD, 1),
                                  Goroutine(0) := Granting(0)])
  {
    hide IsRun;
    r := ReachAsked();
    hide DoLogin, DoLogout, DoCommit, DoLoop, DoRefusal, DoClose, DoRestore, DoPersist, DoInit,
         DoJoin, DoToken, RefreshedState;
    r := Extend(r, Goroutine(0), Launch);
  }

  lemma ReachRefused(f: Ending) returns (r: Run)
    ensures IsRun(r)
    ensures Last(r) == System(Refused(), map[SUPERVISOR := LoopTrying(CLAIMED),
                                             USER := TokenWaiting(0, HELD, 1),
                                             Goroutine(0) := Finishing(0, EndOf(f))])
  {
    hide IsRun;
    r := ReachLaunched();
    hide DoLogin, DoLogout, DoCommit, DoLoop, DoRefusal, DoClose, DoRestore, DoPersist, DoInit,
         DoJoin, DoToken, RefreshedState;
    r := Extend(r, Goroutine(0), GrantFails(f));
    r := Extend(r, Goroutine(0), FenceFailure);
    r := Extend(r, USER, Tick(30 * SECOND));
  }

  function ParkedSystem(f: Ending): System {
    System(ParkedThen(f), map[SUPERVISOR := LoopDone(CLAIMED, ExpiredResult),
                             USER := TokenWaiting(0, HELD, 1),
                             Goroutine(0) := Completing(0)])
  }

  lemma ReachExpired(f: Ending) returns (r: Run)
    ensures IsRun(r)
    ensures Last(r) == System(Refused(), map[SUPERVISOR := LoopDone(CLAIMED, ExpiredResult),
                                             USER := TokenWaiting(0, HELD, 1),
                                             Goroutine(0) := Finishing(0, EndOf(f))])
  {
    hide IsRun;
    r := ReachRefused(f);
    hide DoLogin, DoLogout, DoCommit, DoLoop, DoRefusal, DoRestore, DoPersist, DoInit, DoToken,
         DoGrant, DoClose;
    r := Extend(r, SUPERVISOR, TryRefresh(false));
  }

  lemma ReachParked(f: Ending) returns (r: Run)
    ensures IsRun(r) && |r.states| > 0 && Last(r) == ParkedSystem(f)
  {
    hide IsRun;
    r := ReachExpired(f);
    hide DoLogin, DoLogout, DoCommit, DoLoop, DoRefusal, DoRestore, DoPersist, DoInit, DoToken,
         DoGrant, DoJoin;
    r := Extend(r, Goroutine(0), FinishAttempt(110 * SECOND));
  }

  lemma UnparkStep(f: Ending)
    ensures StepTo(ParkedSystem(f), SUPERVISOR, FinishLoopAttempt(110 * SECOND))
            == Some(System(Unparked(f), ParkedSystem(f).threads[SUPERVISOR := LoopTop]))
  {
    ParkedClock(f);
    hide DoLogin, DoLogout, DoCommit, DoRefusal, DoRestore, DoPersist, DoInit, DoGrant, DoClose,
         DoToken, DoJoin, NextRefresh, ReleaseClaim, ParkedThen;
  }

  lemma ReachUnparked(f: Ending) returns (r: Run, i: nat)
    ensures IsRun(r) && i < |r.states| - 1 && r.states[i] == ParkedSystem(f)
    ensures Last(r) == System(Unparked(f), ParkedSystem(f).threads[SUPERVISOR := LoopTop])
  {
    r := ReachParked(f);
    UnparkStep(f);
    hide IsRun, Do, StepTo, Unparked, ParkedThen;
    i := |r.states| - 1;
    r := Extend(r, SUPERVISOR, FinishLoopAttempt(110 * SECOND));
  }

  lemma ParkedClock(f: Ending)
    ensures ParkedThen(f).clock == 110 * SECOND
  {}

  lemma KnownFacts(f: Ending)
    ensures
      var p := ParkedThen(f);
      && Parked(p.core) && p.core.state == HELD && p.core.revision == 1 && p.nextAttempt == 1
      && (f == IntegrityFailure ==>
            BlockedAs(p.core, BlockedIntegrity) && 1 in p.ghosts.integrityFailed)
    ensures
      var u := Unparked(f);
      && u.core.state == HELD && u.core.revision == 1 && u.core.discovery.Some?
      && u.core.grace == GRACE
      && !Parked(u.core) && u.current == None && u.nextAttempt == 1 && u.clock == 110 * SECOND
  {}

  lemma ReachTryingAgain(f: Ending) returns (r: Run, i: nat)
    ensures IsRun(r) && i < |r.states| - 1 && r.states[i] == ParkedSystem(f)
    ensures Last(r).shared == Unparked(f) && PcOf(Last(r), LATER_USER) == TokenTrying(HELD, 1)
  {
    hide IsRun;
    r, i := ReachUnparked(f);
    KnownFacts(f);
    hide DoLogin, DoLogout, DoCommit, DoRefusal, DoRestore, DoPersist, DoInit, DoGrant, DoClose,
         DoLoop, DoJoin, Unparked, ParkedThen;
    r := Extend(r, LATER_USER, BeginToken);
    r := Extend(r, LATER_USER, JudgeToken(110 * SECOND));
  }

  lemma UnparkedAdmits(f: Ending)
    ensures Admit(Unparked(f).core, HELD, 1, 0, 110 * SECOND) == Admitted
  {
    KnownFacts(f);
    hide Unparked, ParkedThen;
  }

  lemma Beginning(sh: Shared)
    requires sh == Unparked(ClientRefused)
    ensures TryBegin(sh, LATER_USER, HELD, 1, 0) == (Lead(sh, LATER_USER, HELD), Joined(1))
  {
    KnownFacts(ClientRefused);
    UnparkedAdmits(ClientRefused);
    hide Unparked, ParkedThen, Admit, Lead, Parked;
  }

  lemma Leading(sh: Shared)
    requires sh.core.revision == 1 && sh.nextAttempt == 1
    ensures
      var sh' := Lead(sh, LATER_USER, HELD);
      && sh'.core == sh.core && sh'.nextAttempt == 2 && sh'.current == Some(1)
      && 1 in sh'.attempts && sh'.attempts[1].revision == 1 && sh'.attempts[1].snapshot == HELD
  {}

  lemma Joining(sh: Shared, t: Thread, snapshot: TokenState, revision: nat, begun: Shared, a: nat)
    requires TryBegin(sh, t, snapshot, revision, 0) == (begun, Joined(a))
    ensures DoJoin(sh, t, TokenTrying(snapshot, revision), TryRefresh(false))
            == Some((begun, TokenWaiting(a, snapshot, revision)))
  {
    hide TryBegin;
  }

  lemma StartingStep(s: System)
    requires s.shared == Unparked(ClientRefused) && PcOf(s, LATER_USER) == TokenTrying(HELD, 1)
    ensures StepTo(s, LATER_USER, TryRefresh(false))
            == Some(System(Lead(s.shared, LATER_USER, HELD),
                           s.threads[LATER_USER := TokenWaiting(1, HELD, 1)]))
  {
    Beginning(s.shared);
    Joining(s.shared, LATER_USER, HELD, 1, Lead(s.shared, LATER_USER, HELD), 1);
    EveryActionIsGrouped(TryRefresh(false));
    Dispatch(s.shared, LATER_USER, TokenTrying(HELD, 1), TryRefresh(false));
    hide Do, DoJoin, GroupOf, Unparked, ParkedThen, TryBegin, Lead, PcOf;
  }

  /** The hypothesis of ParkingIsSticky is needed: here a revision is parked at state
      `i`, and at the later state `j` -- the same revision -- a new attempt is about to
      present its refresh token. */
  lemma ParkedRevisionIsPresentedAgain() returns (r: Run, i: nat, j: nat)
    ensures IsRun(r) && i < j < |r.states|
    ensures Parked(At(r, i).core) && At(r, j).core.revision == At(r, i).core.revision
    ensures At(r, j).nextAttempt > At(r, i).nextAttempt
    ensures At(r, j).current.Some? && At(r, j).current.value in At(r, j).attempts
    ensures
      var at := At(r, j).attempts[At(r, j).current.value];
      at.revision == At(r, i).core.revision && at.snapshot == At(r, i).core.state
  {
    var f: Ending := ClientRefused;
    r, i := ReachTryingAgain(f);
    KnownFacts(f);
    StartingStep(Last(r));
    Leading(Last(r).shared);
    hide IsRun, StepTo, Unparked, ParkedThen, Lead;
    r := Extend(r, LATER_USER, TryRefresh(false));
    j := |r.states| - 1;
  }

  lemma GivingUp(s: System)
    requires PcOf(s, LATER_USER) == TokenTrying(HELD, 1)
    ensures StepTo(s, LATER_USER, CancelWait(true))
            == Some(System(s.shared, s.threads[LATER_USER := TokenDeciding]))
  {
    EveryActionIsGrouped(CancelWait(true));
    Dispatch(s.shared, LATER_USER, TokenTrying(HELD, 1), CancelWait(true));
    hide Do, GroupOf, TryBegin;
  }

  lemma ReachDeciding() returns (r: Run, i: nat)
    ensures IsRun(r) && i < |r.states| - 1 && r.states[i] == ParkedSystem(IntegrityFailure)
    ensures Last(r).shared == Unparked(IntegrityFailure)
    ensures PcOf(Last(r), LATER_USER) == TokenDeciding
  {
    hide IsRun;
    r, i := ReachTryingAgain(IntegrityFailure);
    GivingUp(Last(r));
    hide Do, StepTo, Unparked, ParkedThen;
    r := Extend(r, LATER_USER, CancelWait(true));
  }

  lemma DecidingStep(s: System)
    requires s.shared == Unparked(IntegrityFailure) && PcOf(s, LATER_USER) == TokenDeciding
    ensures StepTo(s, LATER_USER, DecideToken(110 * SECOND))
            == Some(System(s.shared, s.threads[LATER_USER := Answered("access")]))
  {
    var act := DecideToken(110 * SECOND);
    EveryActionIsGrouped(act);
    KnownFacts(IntegrityFailure);
    Dispatch(s.shared, LATER_USER, TokenDeciding, act);
    hide Do, GroupOf, Unparked, ParkedThen;
  }

  /** The same release undoes an integrity failure: at state `i` the generation is parked as
      one and nobody finds it usable at any time; at the last state -- same revision, same
      state, token expired -- AuthStatus reports it usable, and a caller that only came
      after state `i` is answered with its token. */
  lemma FailedTokenIsHandedOut() returns (r: Run, i: nat)
    ensures IsRun(r) && i < |r.labels|
    ensures BlockedAs(At(r, i).core, BlockedIntegrity)
    ensures forall now: Time :: Status(At(r, i).core, now) == UNUSABLE
    ensures
      var before, after := At(r, i), At(r, |r.labels|);
      && after.core.revision == before.core.revision && after.core.state == before.core.state
      && after.core.revision in before.ghosts.integrityFailed
      && after.core.state.expiresAt <= after.clock
      && Status(after.core, after.clock).canUseApp
    ensures
      var t := r.labels[|r.labels| - 1].thread;
      && PcOf(r.states[i], t) == Idle
      && PcOf(r.states[|r.labels|], t) == Answered(At(r, i).core.state.accessToken)
      && At(r, i).core.state.accessToken != ""
  {
    var before;
    before, i := ReachDeciding();
    DecidingStep(Last(before));
    StaleFacts();
    hide IsRun, StepTo, Unparked, ParkedThen;
    r := Extend(before, LATER_USER, DecideToken(110 * SECOND));
    KnownFacts(IntegrityFailure);
    Lengths(before);
    Lengths(r);
    assert r.states[i] == before.states[i] && r.states[|r.labels|] == Last(r);
  }

  lemma StaleFacts()
    ensures forall now: Time :: Status(ParkedThen(IntegrityFailure).core, now) == UNUSABLE
    ensures Status(Unparked(IntegrityFailure).core, 110 * SECOND).canUseApp
  {
    KnownFacts(IntegrityFailure);
  }

  lemma Lengths(r: Run)
    requires IsRun(r)
    ensures |r.states| == |r.labels| + 1
  {}
}
