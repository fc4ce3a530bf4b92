/**
 A concrete run in which AccessToken hands out the token of a generation that is parked
 as an integrity failure and has expired (refresh.go:209-213, accesstoken.go:58-60): a
 caller reads generation 1 and is delayed; another caller's refresh installs generation
 2; a third caller's refresh of that one fails its integrity check after expiry; the
 delayed caller then finds its revision stale and is given what memory holds.
*/
module StaleAnswer {
  import opened Basics
  import opened ClientCore
  import opened Errors
  import opened ParkingTheorems
  import opened Protocol
  import opened SessionTheorems
  import opened StageTimes
  import opened Tokens
  import opened Unparking
  import Events

  const DELAYED := Caller(1)
  const REFRESHER := Caller(2)
  const THIRD := Caller(3)
  const NEXT := TokenState("access2", "refresh", "id", 100 * SECOND, 80 * SECOND)
  const ANSWER := TokenResponse("access2", "", "", false, 100 * SECOND)

  // ----- the states on the way --------------------------------------------------

  function BothReady(): Shared {
    Initialized().(clock := 80 * SECOND)
  }

  function AtEndpoint(): Shared {
    var sh := Lead(BothReady(), REFRESHER, HELD);
    sh.(attempts := map[0 := sh.attempts[0].(launched := true)])
  }

  function Installed(): Shared {
    Install(AtEndpoint(), NEXT).(commitMu := Some(Goroutine(0)))
  }

  function Saved(): Shared {
    var sh := Enqueue(Installed(), Events.TokenRefreshed, Some(2));
    sh.(store := NEXT, commitMu := None)
  }

  function Refreshed(): Shared {
    CloseAttempt(Saved(), 0, Outcome(NEXT, None), 80 * SECOND)
  }

  function AtEndpointAgain(): Shared {
    var sh := Lead(Refreshed().(clock := 120 * SECOND), THIRD, NEXT);
    sh.(attempts := sh.attempts[1 := sh.attempts[1].(launched := true)])
  }

  const FAILURE := Outcome(ZERO, Some(IntegrityFailure))

  function ParkedThird(): Shared {
    CloseAttempt(AtEndpointAgain(), 1, FAILURE, 120 * SECOND)
  }

  const TRYING := TokenTrying(HELD, 1)

  function Threads(refresher: Pc, goroutine: Pc): map<Thread, Pc> {
    map[SUPERVISOR := Idle, DELAYED := TRYING, REFRESHER := refresher, Goroutine(0) := goroutine]
  }

  function Later(third: Pc, goroutine: Pc): map<Thread, Pc> {
    Threads(TokenWaiting(0, HELD, 1), Completing(0))[THIRD := third][Goroutine(1) := goroutine]
  }

  // ----- the run ----------------------------------------------------------------

  lemma ReadyFacts()
    ensures
      var sh := BothReady();
      && sh.core.state == HELD && sh.core.revision == 1 && sh.core.discovery.Some?
      && !Parked(sh.core) && sh.clock == 80 * SECOND && sh.current == None && sh.nextAttempt == 0
      && sh.attempts == map[] && sh.commitMu == None
    ensures Initialized().clock == 60 * SECOND
  {}

  lemma ReachDelayed() returns (r: Run)
    ensures IsRun(r)
    ensures Last(r) == System(BothReady(), map[SUPERVISOR := Idle, DELAYED := TRYING])
  {
    r := ReachInitialized();
    ReadyFacts();
    hide IsRun, DoLogin, DoLogout, DoCommit, DoRestore, DoJoin, DoGrant, DoRefusal, DoClose, DoLoop,
         DoPersist, DoInit, Initialized;
    r := Extend(r, DELAYED, Tick(20 * SECOND));
    assert Last(r).shared == BothReady();
    r := Extend(r, DELAYED, BeginToken);
    r := Extend(r, DELAYED, JudgeToken(80 * SECOND));
  }

  lemma ReachBothTrying() returns (r: Run)
    ensures IsRun(r)
    ensures Last(r) == System(BothReady(), map[SUPERVISOR := Idle, DELAYED := TRYING,
                                               REFRESHER := TRYING])
  {
    r := ReachDelayed();
    ReadyFacts();
    hide IsRun, DoLogin, DoLogout, DoCommit, DoRestore, DoJoin, DoGrant, DoRefusal, DoClose, DoLoop,
         DoPersist, DoInit, BothReady;
    r := Extend(r, REFRESHER, BeginToken);
    r := Extend(r, REFRESHER, JudgeToken(80 * SECOND));
  }

  lemma ReachLeading() returns (r: Run)
    ensures IsRun(r)
    ensures Last(r) == System(Lead(BothReady(), REFRESHER, HELD),
                              map[SUPERVISOR := Idle, DELAYED := TRYING,
                                  REFRESHER := TokenWaiting(0, HELD, 1)])
  {
    r := ReachBothTrying();
    ReadyFacts();
    hide IsRun, DoLogin, DoLogout, DoCommit, DoRestore, DoToken, DoRefusal, DoClose, DoLoop,
         DoPersist, DoInit, DoGrant, BothReady;
    r := Extend(r, REFRESHER, TryRefresh(false));
  }

  lemma ReachGranting() returns (r: Run)
    ensures IsRun(r)
    ensures Last(r) == System(AtEndpoint(), Threads(TokenWaiting(0, HELD, 1), Granting(0)))
  {
    r := ReachLeading();
    ReadyFacts();
    hide IsRun, DoLogin, DoLogout, DoCommit, DoRestore, DoToken, DoRefusal, DoClose, DoLoop,
         DoPersist, DoInit, DoJoin, BothReady, RefreshedState;
    r := Extend(r, Goroutine(0), Launch);
  }

  lemma GrantingFacts()
    ensures
      var sh := AtEndpoint();
      && sh.core.revision == 1 && sh.clock == 80 * SECOND && sh.commitMu == None
      && sh.attempts == map[0 := RefreshAttempt(1, HELD, 1, {REFRESHER}, false, true, None, false)]
      && sh.current == Some(0) && sh.nextAttempt == 1
    ensures RefreshedState(AtEndpoint().core.subjectOf, HELD, ANSWER, 80 * SECOND) == Some(NEXT)
  {}

  lemma ReachInstalled() returns (r: Run)
    ensures IsRun(r)
    ensures Last(r) == System(Installed(), Threads(TokenWaiting(0, HELD, 1), Saving(ByRefresh(0), 2)))
  {
    r := ReachGranting();
    GrantingFacts();
    hide IsRun, DoLogin, DoLogout, DoCommit, DoRestore, DoToken, DoJoin, DoRefusal, DoClose, DoLoop,
         DoPersist, DoInit, AtEndpoint, RefreshedState;
    r := Extend(r, Goroutine(0), GrantSucceeds(ANSWER));
    r := Extend(r, Goroutine(0), CommitRefresh);
  }

  lemma InstalledFacts()
    ensures
      var sh := Installed();
      && sh.core.state == NEXT && sh.core.revision == 2 && sh.clock == 80 * SECOND
      && sh.commitMu == Some(Goroutine(0))
  {}

  lemma ReachQueueing() returns (r: Run)
    ensures IsRun(r)
    ensures Last(r) == System(Installed().(store := NEXT),
                              Threads(TokenWaiting(0, HELD, 1), Queueing(ByRefresh(0), 2)))
  {
    r := ReachInstalled();
    InstalledFacts();
    hide IsRun, DoLogin, DoLogout, DoGrant, DoRestore, DoToken, DoJoin, DoRefusal, DoClose, DoLoop,
         DoPersist, DoInit, Installed;
    r := Extend(r, Goroutine(0), SaveReturns(false, ZERO));
    r := Extend(r, Goroutine(0), RecordSaveResult(80 * SECOND));
  }

  lemma ReachSaved() returns (r: Run)
    ensures IsRun(r)
    ensures Last(r) == System(Saved(), Threads(TokenWaiting(0, HELD, 1), Finishing(0, Outcome(NEXT, None))))
  {
    r := ReachQueueing();
    InstalledFacts();
    hide IsRun, DoLogin, DoLogout, DoGrant, DoRestore, DoToken, DoJoin, DoRefusal, DoClose, DoLoop,
         DoPersist, DoInit, Installed;
    r := Extend(r, Goroutine(0), QueueCommitEvent);
  }

  lemma SavedFacts()
    ensures
      var sh := Saved();
      && sh.clock == 80 * SECOND && sh.current == Some(0)
      && sh.attempts == map[0 := RefreshAttempt(1, HELD, 1, {REFRESHER}, false, true, None, false)]
  {}

  lemma ReachRefreshed() returns (r: Run)
    ensures IsRun(r)
    ensures Last(r) == System(Refreshed().(clock := 120 * SECOND),
                              Threads(TokenWaiting(0, HELD, 1), Completing(0)))
  {
    r := ReachSaved();
    SavedFacts();
    RefreshedFacts();
    hide IsRun, DoLogin, DoLogout, DoGrant, DoRestore, DoToken, DoJoin, DoRefusal, DoCommit, DoLoop,
         DoPersist, DoInit, Saved;
    r := Extend(r, Goroutine(0), FinishAttempt(80 * SECOND));
    r := Extend(r, DELAYED, Tick(40 * SECOND));
  }

  lemma RefreshedFacts()
    ensures
      var sh := Refreshed();
      && sh.core.state == NEXT && sh.core.revision == 2 && sh.core.discovery.Some?
      && !Parked(sh.core) && sh.clock == 80 * SECOND && sh.current == None && sh.nextAttempt == 1
      && 1 !in sh.attempts
  {}

  function ThirdThreads(third: Pc): map<Thread, Pc> {
    Threads(TokenWaiting(0, HELD, 1), Completing(0))[THIRD := third]
  }

  lemma ReachThirdTrying() returns (r: Run)
    ensures IsRun(r)
    ensures Last(r) == System(Refreshed().(clock := 120 * SECOND), ThirdThreads(TokenTrying(NEXT, 2)))
  {
    r := ReachRefreshed();
    RefreshedFacts();
    hide IsRun, DoLogin, DoLogout, DoGrant, DoRestore, DoClose, DoJoin, DoRefusal, DoCommit, DoLoop,
         DoPersist, DoInit, Refreshed;
    r := Extend(r, THIRD, BeginToken);
    r := Extend(r, THIRD, JudgeToken(120 * SECOND));
  }

  lemma ReachLeadingAgain() returns (r: Run)
    ensures IsRun(r)
    ensures Last(r) == System(Lead(Refreshed().(clock := 120 * SECOND), THIRD, NEXT),
                              ThirdThreads(TokenWaiting(1, NEXT, 2)))
  {
    r := ReachThirdTrying();
    RefreshedFacts();
    hide IsRun, DoLogin, DoLogout, DoToken, DoRestore, DoClose, DoRefusal, DoCommit, DoLoop,
         DoPersist, DoInit, DoGrant, Refreshed;
    r := Extend(r, THIRD, TryRefresh(false));
  }

  lemma ReachAgain() returns (r: Run)
    ensures IsRun(r)
    ensures Last(r) == System(AtEndpointAgain(), Later(TokenWaiting(1, NEXT, 2), Granting(1)))
  {
    r := ReachLeadingAgain();
    RefreshedFacts();
    hide IsRun, DoLogin, DoLogout, DoToken, DoRestore, DoClose, DoRefusal, DoCommit, DoLoop,
         DoPersist, DoInit, DoJoin, Refreshed, RefreshedState;
    r := Extend(r, Goroutine(1), Launch);
  }

  lemma AgainFacts()
    ensures
      var sh := AtEndpointAgain();
      && sh.core.revision == 2 && sh.clock == 120 * SECOND
      && 1 in sh.attempts && sh.attempts[1].revision == 2
  {}

  lemma ReachFailing() returns (r: Run)
    ensures IsRun(r)
    ensures Last(r) == System(AtEndpointAgain(), Later(TokenWaiting(1, NEXT, 2), Finishing(1, FAILURE)))
  {
    r := ReachAgain();
    AgainFacts();
    hide IsRun, DoLogin, DoLogout, DoToken, DoRestore, DoClose, DoRefusal, DoCommit, DoLoop, DoJoin,
         DoPersist, DoInit, AtEndpointAgain, RefreshedState;
    r := Extend(r, Goroutine(1), GrantFails(IntegrityFailure));
    r := Extend(r, Goroutine(1), FenceFailure);
  }

  lemma ReachParkedThird() returns (r: Run)
    ensures IsRun(r)
    ensures Last(r) == System(ParkedThird(), Later(TokenWaiting(1, NEXT, 2), Completing(1)))
  {
    r := ReachFailing();
    AgainFacts();
    hide IsRun, DoLogin, DoLogout, DoToken, DoRestore, DoGrant, DoRefusal, DoCommit, DoLoop, DoJoin,
         DoPersist, DoInit, AtEndpointAgain;
    r := Extend(r, Goroutine(1), FinishAttempt(120 * SECOND));
  }

  lemma ParkedFacts()
    ensures
      var sh := ParkedThird();
      && sh.core.state == NEXT && sh.core.revision == 2
      && BlockedAs(sh.core, BlockedIntegrity) && sh.clock == 120 * SECOND
  {}

  /** At state `i` the current generation stands parked as an integrity failure and its
      access token has expired, so that no reader finds it usable; still the step that
      follows answers an AccessToken call with that token. */
  lemma ParkedTokenIsHandedOut() returns (r: Run, i: nat)
    ensures IsRun(r) && i < |r.labels|
    ensures BlockedAs(At(r, i).core, BlockedIntegrity)
    ensures At(r, i).core.state.expiresAt <= At(r, i).clock
    ensures forall now: Time :: UsableToken(At(r, i).core, now) == ""
    ensures
      var answer := PcOf(r.states[i + 1], r.labels[i].thread);
      && answer == Answered(At(r, i).core.state.accessToken)
      && answer.token != "" && answer != ActorPc(r, i)
  {
    var before := ReachParkedThird();
    i := |before.labels|;
    FinalStep();
    Lengths(before);
    hide IsRun, StepTo, ParkedThird;
    ParkedFacts();
    r := Extend(before, DELAYED, TryRefresh(false));
    Lengths(r);
    assert r.states[i] == Last(before) && r.states[i + 1] == Last(r);
  }

  lemma FinalStep()
    ensures
      var s := System(ParkedThird(), Later(TokenWaiting(1, NEXT, 2), Completing(1)));
      && StepTo(s, DELAYED, TryRefresh(false)).Some?
      && PcOf(s, DELAYED) == TRYING
      && PcOf(StepTo(s, DELAYED, TryRefresh(false)).value, DELAYED) == Answered("access2")
  {
    ParkedFacts();
    hide DoLogin, DoLogout, DoToken, DoRestore, DoGrant, DoRefusal, DoCommit, DoLoop, DoClose,
         DoPersist, DoInit, ParkedThird;
  }
}
