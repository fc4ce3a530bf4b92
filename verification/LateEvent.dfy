/**
 A concrete run in which the event of a parked generation moves to a later time
 (pkceflow.go:454-458): a background attempt fails its integrity check and parks the
 generation; ten seconds later the supervisor releases its claim and records the time
 of the release.
*/
module LateEvent {
  import opened Basics
  import opened ClientCore
  import opened Errors
  import opened ParkingTheorems
  import opened Protocol
  import opened SessionTheorems
  import opened StageTimes
  import opened Tokens
  import opened Unparking

  const FAILED := Outcome(ZERO, Some(IntegrityFailure))

  // ----- the states on the way --------------------------------------------------

  function Joining(): Shared {
    Started(Lead(Claimed(), SUPERVISOR, HELD), CLAIMED)
  }

  function Failing(): Shared {
    var sh := Joining();
    sh.(attempts := map[0 := sh.attempts[0].(launched := true)])
  }

  function Failed(): Shared {
    CloseAttempt(Failing(), 0, FAILED, 60 * SECOND)
  }

  function Completed(): Shared {
    var sh := Failed();
    sh.(clock := 70 * SECOND, attempts := sh.attempts[0 := sh.attempts[0].(complete := true)])
  }

  function Left(): Shared {
    Leave(Completed(), SUPERVISOR, 0)
  }

  function Released(): Shared {
    ReleaseClaim(Left(), CLAIMED, IntegrityResult, 70 * SECOND)
  }

  // ----- the run ----------------------------------------------------------------

  lemma ReachJoining() returns (r: Run)
    ensures IsRun(r) && Last(r) == System(Joining(), map[SUPERVISOR := LoopJoined(CLAIMED, 0)])
  {
    hide IsRun;
    r := ReachClaimed();
    hide DoLogin, DoLogout, DoCommit, DoLoop, DoGrant, DoRefusal, DoClose, DoRestore, DoPersist,
         DoInit, DoToken;
    r := Extend(r, SUPERVISOR, TryRefresh(false));
  }

  lemma ReachLaunchedAttempt() returns (r: Run)
    ensures IsRun(r)
    ensures Last(r) == System(Failing(), map[SUPERVISOR := LoopJoined(CLAIMED, 0),
                                             Goroutine(0) := Granting(0)])
  {
    hide IsRun;
    r := ReachJoining();
    hide DoLogin, DoLogout, DoCommit, DoLoop, DoRefusal, DoClose, DoRestore, DoPersist, DoInit,
         DoJoin, DoToken, RefreshedState;
    r := Extend(r, Goroutine(0), Launch);
  }

  lemma ReachFailing() returns (r: Run)
    ensures IsRun(r)
    ensures Last(r) == System(Failing(), map[SUPERVISOR := LoopJoined(CLAIMED, 0),
                                             Goroutine(0) := Finishing(0, FAILED)])
  {
    hide IsRun;
    r := ReachLaunchedAttempt();
    hide DoLogin, DoLogout, DoCommit, DoLoop, DoRefusal, DoClose, DoRestore, DoPersist, DoInit,
         DoJoin, DoToken, RefreshedState;
    r := Extend(r, Goroutine(0), GrantFails(IntegrityFailure));
    r := Extend(r, Goroutine(0), FenceFailure);
  }

  lemma FailingFacts()
    ensures 0 in Failing().attempts && Failing().clock == 60 * SECOND
  {}

  lemma FinishStep(s: System)
    requires s.shared == Failing() && PcOf(s, Goroutine(0)) == Finishing(0, FAILED)
    ensures StepTo(s, Goroutine(0), FinishAttempt(60 * SECOND))
            == Some(System(Failed(), s.threads[Goroutine(0) := Completing(0)]))
  {
    FailingFacts();
    EveryActionIsGrouped(FinishAttempt(60 * SECOND));
    Dispatch(s.shared, Goroutine(0), Finishing(0, FAILED), FinishAttempt(60 * SECOND));
    hide Do, GroupOf, CloseAttempt, Failing;
  }

  lemma ReachFailed() returns (r: Run)
    ensures IsRun(r)
    ensures Last(r) == System(Failed(), map[SUPERVISOR := LoopJoined(CLAIMED, 0),
                                            Goroutine(0) := Completing(0)])
  {
    r := ReachFailing();
    FinishStep(Last(r));
    hide IsRun, StepTo, Failing, Failed;
    r := Extend(r, Goroutine(0), FinishAttempt(60 * SECOND));
  }

  lemma FailedFacts()
    ensures 0 in Failed().attempts && Failed().clock == 60 * SECOND
    ensures
      var c := Failed().core;
      BlockedAs(c, BlockedIntegrity) && c.revision == 1 && c.schedule.eventAt == 60 * SECOND
      && HoldsRefreshClaim(c, CLAIMED)
    ensures Failed().attempts[0].outcome == Some(FAILED)
  {}

  lemma ReachCompleted() returns (r: Run)
    ensures IsRun(r)
    ensures Last(r) == System(Completed(), map[SUPERVISOR := LoopJoined(CLAIMED, 0),
                                               Goroutine(0) := Idle])
  {
    hide IsRun;
    r := ReachFailed();
    FailedFacts();
    hide DoLogin, DoLogout, DoCommit, DoLoop, DoRefusal, DoRestore, DoPersist, DoInit, DoToken,
         DoGrant, DoJoin, Failed;
    r := Extend(r, Goroutine(0), CloseComplete);
    r := Extend(r, Goroutine(0), Tick(10 * SECOND));
  }

  lemma ReachLeft() returns (r: Run)
    ensures IsRun(r)
    ensures Last(r) == System(Left(), map[SUPERVISOR := LoopDone(CLAIMED, IntegrityResult),
                                          Goroutine(0) := Idle])
  {
    hide IsRun;
    r := ReachCompleted();
    FailedFacts();
    hide DoLogin, DoLogout, DoCommit, DoLoop, DoRefusal, DoRestore, DoPersist, DoInit, DoToken,
         DoGrant, DoClose, Failed, TryBegin;
    r := Extend(r, SUPERVISOR, ReadOutcome(false));
  }

  lemma ReleasedFacts()
    ensures Left().core == Failed().core && Left().clock == 70 * SECOND
    ensures
      var c := Released().core;
      BlockedAs(c, BlockedIntegrity) && c.revision == 1 && c.schedule.eventAt == 70 * SECOND
  {
    FailedFacts();
    hide Failed;
  }

  /** The exception of EventMovesEarlier is real: the last step of this run leaves the
      generation parked as it was, and moves its event from sixty to seventy seconds. */
  lemma EventMovesLater() returns (r: Run, i: nat)
    ensures IsRun(r) && i < |r.labels|
    ensures At(r, i + 1).core.revision == At(r, i).core.revision
    ensures BlockedAs(At(r, i).core, BlockedIntegrity) && BlockedAs(At(r, i + 1).core, BlockedIntegrity)
    ensures At(r, i).core.schedule.eventAt == 60 * SECOND
    ensures At(r, i + 1).core.schedule.eventAt == 70 * SECOND
  {
    var before := ReachLeft();
    FailedFacts();
    ReleasedFacts();
    Lengths(before);
    ReleaseStep(Last(before));
    hide IsRun, StepTo, Released, Left, Failed;
    r := Extend(before, SUPERVISOR, FinishLoopAttempt(70 * SECOND));
    Lengths(r);
    i := |before.states| - 1;
    assert r.states[i] == Last(before) && r.states[i + 1] == Last(r);
  }

  lemma ReleaseStep(s: System)
    requires s.shared == Left() && PcOf(s, SUPERVISOR) == LoopDone(CLAIMED, IntegrityResult)
    ensures StepTo(s, SUPERVISOR, FinishLoopAttempt(70 * SECOND))
            == Some(System(Released(), s.threads[SUPERVISOR := LoopTop]))
  {
    ReleasedFacts();
    EveryActionIsGrouped(FinishLoopAttempt(70 * SECOND));
    Dispatch(s.shared, SUPERVISOR, LoopDone(CLAIMED, IntegrityResult), FinishLoopAttempt(70 * SECOND));
    hide Do, GroupOf, ReleaseClaim, Left, NextRefresh;
  }
}
