/**
 Shared refresh attempts: who participates, which one is current, and who runs it
 (refresh.go).
*/
module Attempts {
  import opened Basics
  import opened ClientCore
  import opened Errors
  import opened Locks
  import opened Places
  import opened Protocol
  import opened StageTimes
  import opened Tokens
  import CoreEvents

  import opened Generations

  ghost predicate AttemptOk(sh: Shared, a: nat)
    requires a in sh.attempts
  {
    var at := sh.attempts[a];
    && a < sh.nextAttempt
    && at.revision < |sh.ghosts.history|
    && at.snapshot == sh.ghosts.history[at.revision]
    && at.snapshot.refreshToken != ""
    && at.participants == |at.joined|
    && (at.outcome.None? ==> sh.current == Some(a) && (at.cancelled <==> at.participants == 0))
    && (at.outcome.Some? ==> at.launched && sh.current != Some(a))
    && (at.complete ==> at.outcome.Some?)
  }

  ghost predicate AttemptsOk(sh: Shared) {
    && (forall a :: a in sh.attempts ==> AttemptOk(sh, a))
    && (sh.current.Some? ==> sh.current.value in sh.attempts)
  }

  ghost predicate JoinFits(sh: Shared, t: Thread, pc: Pc) {
    && (forall a :: a in sh.attempts ==>
          (t in sh.attempts[a].joined <==> WaitsOn(pc) == Some(a)))
    && (WaitsOn(pc).Some? ==>
          && WaitsOn(pc).value in sh.attempts
          && SnapshotOf(pc).Some?
          && sh.attempts[WaitsOn(pc).value].revision == SnapshotOf(pc).value.revision)
  }

  /** A goroutine works on its own attempt from launch to completion. */
  ghost predicate RunFits(sh: Shared, t: Thread, pc: Pc) {
    && (Runs(pc).Some? ==> t == Goroutine(Runs(pc).value))
    && (t.Goroutine? ==>
          if t.attempt !in sh.attempts || !sh.attempts[t.attempt].launched then pc.Idle?
          else if pc.Idle? then sh.attempts[t.attempt].complete
          else
            && Runs(pc) == Some(t.attempt)
            && !sh.attempts[t.attempt].complete
            && (sh.attempts[t.attempt].outcome.Some? <==> pc.Completing?))
  }

  ghost predicate AttemptFits(sh: Shared, t: Thread, pc: Pc) {
    JoinFits(sh, t, pc) && RunFits(sh, t, pc)
  }

  ghost predicate RelyAttempts(t: Thread, sh: Shared, sh': Shared) {
    && (forall a :: a in sh.attempts ==>
          && a in sh'.attempts
          && sh'.attempts[a].revision == sh.attempts[a].revision
          && sh'.attempts[a].snapshot == sh.attempts[a].snapshot
          && (t in sh'.attempts[a].joined <==> t in sh.attempts[a].joined)
          && (t == Goroutine(a) ==>
                && sh'.attempts[a].launched == sh.attempts[a].launched
                && sh'.attempts[a].outcome == sh.attempts[a].outcome
                && sh'.attempts[a].complete == sh.attempts[a].complete))
    && (forall a :: a in sh'.attempts && a !in sh.attempts ==>
          t !in sh'.attempts[a].joined && !sh'.attempts[a].launched)
  }

  lemma RelyKeepsAttemptFits(t: Thread, pc: Pc, sh: Shared, sh': Shared)
    requires AttemptFits(sh, t, pc) && RelyAttempts(t, sh, sh')
    ensures AttemptFits(sh', t, pc)
  {}

  ghost predicate Keeps(sh: Shared, t: Thread, sh': Shared, pc': Pc) {
    && AttemptsOk(sh')
    && AttemptFits(sh', t, pc')
    && forall u :: u != t ==> RelyAttempts(u, sh, sh')
  }

  // ----- steps that leave every attempt alone -----------------------------------

  ghost predicate SameAttempts(sh: Shared, sh': Shared) {
    && sh'.attempts == sh.attempts
    && sh'.current == sh.current
    && sh'.nextAttempt == sh.nextAttempt
    && sh.ghosts.history <= sh'.ghosts.history
  }

  /** The thread neither joins, leaves, launches nor closes an attempt. */
  ghost predicate SameDuty(t: Thread, pc: Pc, pc': Pc) {
    && WaitsOn(pc') == WaitsOn(pc)
    && (WaitsOn(pc).Some? ==> SnapshotOf(pc') == SnapshotOf(pc))
    && Runs(pc') == Runs(pc)
    && (pc'.Completing? <==> pc.Completing?)
    && (t.Goroutine? && pc.Idle? ==> pc'.Idle?)
  }

  /** An attempt that a step did not touch stays well-formed. */
  lemma AttemptOkFrame(sh: Shared, sh': Shared, a: nat)
    requires a in sh.attempts && a in sh'.attempts && AttemptOk(sh, a)
    requires sh'.attempts[a] == sh.attempts[a] && sh.nextAttempt <= sh'.nextAttempt
    requires sh.ghosts.history <= sh'.ghosts.history
    requires sh.current == Some(a) <==> sh'.current == Some(a)
    ensures AttemptOk(sh', a)
  {}

  lemma SameAttemptsOk(sh: Shared, sh': Shared)
    requires AttemptsOk(sh) && SameAttempts(sh, sh')
    ensures AttemptsOk(sh')
    ensures forall u :: RelyAttempts(u, sh, sh')
  {
    forall a | a in sh'.attempts ensures AttemptOk(sh', a) {
      AttemptOkFrame(sh, sh', a);
    }
  }

  lemma SameAttemptsKeep(sh: Shared, t: Thread, pc: Pc, sh': Shared, pc': Pc)
    requires AttemptsOk(sh) && AttemptFits(sh, t, pc)
    requires SameAttempts(sh, sh') && SameDuty(t, pc, pc')
    ensures Keeps(sh, t, sh', pc')
  {
    hide AttemptOk, AttemptFits, RelyAttempts, SameDuty;
    SameAttemptsOk(sh, sh');
    SameDutyFits(sh, t, pc, sh', pc');
  }

  lemma SameDutyFits(sh: Shared, t: Thread, pc: Pc, sh': Shared, pc': Pc)
    requires AttemptFits(sh, t, pc) && SameAttempts(sh, sh') && SameDuty(t, pc, pc')
    ensures AttemptFits(sh', t, pc')
  {}

  // ----- steps on one attempt ---------------------------------------------------

  /** The step changes participants, and nothing a goroutine depends on. */
  ghost predicate Enters(sh: Shared, t: Thread, sh': Shared, a: nat) {
    && (forall b :: b in sh.attempts ==>
          && b in sh'.attempts
          && sh'.attempts[b].launched == sh.attempts[b].launched
          && sh'.attempts[b].outcome == sh.attempts[b].outcome
          && sh'.attempts[b].complete == sh.attempts[b].complete)
    && (forall b :: b in sh'.attempts && b !in sh.attempts ==> !sh'.attempts[b].launched)
    && (forall b :: b in sh'.attempts ==> (t in sh'.attempts[b].joined <==> b == a))
    && a in sh'.attempts
    && sh'.attempts[a].revision == sh.core.revision
    && (forall u :: u != t ==> RelyAttempts(u, sh, sh'))
  }

  function LedAttempts(sh: Shared, t: Thread): map<nat, RefreshAttempt> {
    Lead(sh, t, sh.core.state).attempts
  }

  lemma LeadRely(sh: Shared, t: Thread, snapshot: TokenState)
    requires sh.nextAttempt !in sh.attempts
    ensures forall u :: u != t ==> RelyAttempts(u, sh, Lead(sh, t, snapshot))
  {}

  lemma LeadKeeps(sh: Shared, t: Thread, snapshot: TokenState)
    requires Keyed(sh) && AttemptsOk(sh) && snapshot.refreshToken != ""
    requires snapshot == sh.core.state && sh.current.None?
    requires forall a :: a in sh.attempts ==> t !in sh.attempts[a].joined
    ensures AttemptsOk(Lead(sh, t, snapshot))
    ensures Enters(sh, t, Lead(sh, t, snapshot), sh.nextAttempt)
  {
    hide RelyAttempts;
    var sh' := Lead(sh, t, snapshot);
    assert forall a :: a in sh.attempts ==> AttemptOk(sh, a) && a < sh.nextAttempt;
    forall a | a in sh'.attempts ensures AttemptOk(sh', a) {
      if a in sh.attempts { AttemptOkFrame(sh, sh', a); }
    }
    LeadRely(sh, t, snapshot);
  }

  lemma FollowRely(sh: Shared, t: Thread, a: nat)
    requires a in sh.attempts
    ensures forall u :: u != t ==> RelyAttempts(u, sh, Follow(sh, t, a))
  {}

  lemma FollowKeeps(sh: Shared, t: Thread, a: nat)
    requires AttemptsOk(sh) && sh.current == Some(a)
    requires a in sh.attempts && sh.attempts[a].participants > 0
    requires sh.attempts[a].revision == sh.core.revision
    requires forall a :: a in sh.attempts ==> t !in sh.attempts[a].joined
    ensures AttemptsOk(Follow(sh, t, a))
    ensures Enters(sh, t, Follow(sh, t, a), a)
  {
    hide RelyAttempts;
    var sh' := Follow(sh, t, a);
    assert |sh.attempts[a].joined + {t}| == |sh.attempts[a].joined| + 1;
    assert AttemptOk(sh, a);
    forall b | b in sh'.attempts ensures AttemptOk(sh', b) {
      if b != a { AttemptOkFrame(sh, sh', b); }
    }
    FollowRely(sh, t, a);
  }

  /** The three ways out of one pass of beginRefreshAttempt. */
  lemma TryBeginCases(sh: Shared, t: Thread, snapshot: TokenState, revision: nat, claimID: nat)
    ensures
      var (sh', entry) := TryBegin(sh, t, snapshot, revision, claimID);
      if entry.Joined? then
        && Admit(sh.core, snapshot, revision, claimID, sh.clock).Admitted?
        && sh.core.state == snapshot && sh.core.revision == revision
        && (if sh.current.None? then sh' == Lead(sh, t, snapshot) && entry.attempt == sh.nextAttempt
            else
              && sh.current == Some(entry.attempt)
              && entry.attempt in sh.attempts
              && sh.attempts[entry.attempt].revision == revision
              && sh.attempts[entry.attempt].participants > 0
              && sh' == Follow(sh, t, entry.attempt))
      else sh' == sh
  {}

  lemma LeaveKeeps(sh: Shared, t: Thread, a: nat)
    requires AttemptsOk(sh) && a in sh.attempts && t in sh.attempts[a].joined
    ensures AttemptsOk(Leave(sh, t, a))
  {
    var sh' := Leave(sh, t, a);
    assert |sh.attempts[a].joined - {t}| == |sh.attempts[a].joined| - 1;
    assert AttemptOk(sh, a);
    forall b | b in sh'.attempts ensures AttemptOk(sh', b) {
      if b != a { AttemptOkFrame(sh, sh', b); }
    }
  }

  lemma LeaveRely(sh: Shared, t: Thread, a: nat)
    requires a in sh.attempts && t in sh.attempts[a].joined
    requires forall b :: b in sh.attempts && t in sh.attempts[b].joined ==> b == a
    ensures
      var sh' := Leave(sh, t, a);
      && (forall u :: u != t ==> RelyAttempts(u, sh, sh'))
      && (forall b :: b in sh'.attempts ==> t !in sh'.attempts[b].joined)
      && sh'.attempts.Keys == sh.attempts.Keys
      && (forall b :: b in sh.attempts ==>
            && sh'.attempts[b].launched == sh.attempts[b].launched
            && sh'.attempts[b].outcome == sh.attempts[b].outcome
            && sh'.attempts[b].complete == sh.attempts[b].complete)
  {}

  /** A goroutine updates its own attempt. */
  lemma OwnAttemptRely(t: Thread, a: nat, sh: Shared, sh': Shared)
    requires t == Goroutine(a) && a in sh.attempts && a in sh'.attempts
    requires sh'.attempts == sh.attempts[a := sh'.attempts[a]]
    requires sh'.attempts[a].revision == sh.attempts[a].revision
    requires sh'.attempts[a].snapshot == sh.attempts[a].snapshot
    requires sh'.attempts[a].joined == sh.attempts[a].joined
    ensures forall u :: u != t ==> RelyAttempts(u, sh, sh')
    ensures forall b :: b in sh'.attempts ==> sh'.attempts[b].joined == sh.attempts[b].joined
  {}

  lemma LaunchKeeps(sh: Shared, t: Thread, pc: Pc, sh': Shared, pc': Pc)
    requires AttemptsOk(sh) && AttemptFits(sh, t, pc)
    requires DoGrant(sh, t, pc, Launch) == Some((sh', pc'))
    ensures Keeps(sh, t, sh', pc')
  {
    forall a | a in sh'.attempts ensures AttemptOk(sh', a) {
      assert AttemptOk(sh, a);
    }
    OwnAttemptRely(t, t.attempt, sh, sh');
    hide RelyAttempts;
  }

  lemma FinishKeeps(sh: Shared, t: Thread, pc: Pc, now: Time, sh': Shared, pc': Pc)
    requires AttemptsOk(sh) && AttemptFits(sh, t, pc)
    requires DoClose(sh, t, pc, FinishAttempt(now)) == Some((sh', pc'))
    ensures Keeps(sh, t, sh', pc')
  {
    hide *;
    FinishedOk(sh, t, pc, now, sh', pc');
    FinishedFits(sh, t, pc, now, sh', pc');
    KeepsFrom(sh, t, sh', pc');
  }

  lemma FinishedJoin(sh: Shared, t: Thread, pc: Pc, now: Time, sh': Shared, pc': Pc)
    requires AttemptFits(sh, t, pc)
    requires DoClose(sh, t, pc, FinishAttempt(now)) == Some((sh', pc'))
    ensures JoinFits(sh', t, pc')
  {
    hide RecordFailure;
  }

  lemma FinishedFits(sh: Shared, t: Thread, pc: Pc, now: Time, sh': Shared, pc': Pc)
    requires AttemptFits(sh, t, pc)
    requires DoClose(sh, t, pc, FinishAttempt(now)) == Some((sh', pc'))
    ensures AttemptFits(sh', t, pc')
    ensures forall u :: u != t ==> RelyAttempts(u, sh, sh')
  {
    hide RelyAttempts, RecordFailure, JoinFits;
    OwnAttemptRely(t, pc.attempt, sh, sh');
    FinishedJoin(sh, t, pc, now, sh', pc') by { hide *; }
  }

  lemma FinishedOk(sh: Shared, t: Thread, pc: Pc, now: Time, sh': Shared, pc': Pc)
    requires AttemptsOk(sh) && AttemptFits(sh, t, pc)
    requires DoClose(sh, t, pc, FinishAttempt(now)) == Some((sh', pc'))
    ensures AttemptsOk(sh')
  {
    assert AttemptOk(sh, pc.attempt);
    hide JoinFits, RecordFailure;
    forall a | a in sh'.attempts ensures AttemptOk(sh', a) {
      if a != pc.attempt { AttemptOkFrame(sh, sh', a); }
    }
  }

  lemma CompleteKeeps(sh: Shared, t: Thread, pc: Pc, sh': Shared, pc': Pc)
    requires AttemptsOk(sh) && AttemptFits(sh, t, pc)
    requires DoClose(sh, t, pc, CloseComplete) == Some((sh', pc'))
    ensures Keeps(sh, t, sh', pc')
  {
    hide *;
    CompleteFits(sh, t, pc, sh', pc');
    CompleteRely(sh, t, pc, sh', pc');
    KeepsFrom(sh, t, sh', pc');
  }

  lemma KeepsFrom(sh: Shared, t: Thread, sh': Shared, pc': Pc)
    requires AttemptsOk(sh') && AttemptFits(sh', t, pc')
    requires forall u :: u != t ==> RelyAttempts(u, sh, sh')
    ensures Keeps(sh, t, sh', pc')
  {
    hide AttemptsOk, AttemptFits, RelyAttempts;
  }

  lemma CompleteRely(sh: Shared, t: Thread, pc: Pc, sh': Shared, pc': Pc)
    requires AttemptFits(sh, t, pc)
    requires DoClose(sh, t, pc, CloseComplete) == Some((sh', pc'))
    ensures forall u :: u != t ==> RelyAttempts(u, sh, sh')
  {
    OwnAttemptRely(t, pc.attempt, sh, sh');
    hide RelyAttempts;
  }

  lemma CompleteFits(sh: Shared, t: Thread, pc: Pc, sh': Shared, pc': Pc)
    requires AttemptsOk(sh) && AttemptFits(sh, t, pc)
    requires DoClose(sh, t, pc, CloseComplete) == Some((sh', pc'))
    ensures AttemptsOk(sh') && AttemptFits(sh', t, pc')
  {
    CompletedOk(sh, t, pc, sh', pc') by { hide *; }
    hide AttemptsOk;
  }

  lemma CompletedOk(sh: Shared, t: Thread, pc: Pc, sh': Shared, pc': Pc)
    requires AttemptsOk(sh) && AttemptFits(sh, t, pc)
    requires DoClose(sh, t, pc, CloseComplete) == Some((sh', pc'))
    ensures AttemptsOk(sh')
  {
    assert AttemptOk(sh, pc.attempt);
    hide JoinFits;
    forall a | a in sh'.attempts ensures AttemptOk(sh', a) {
      if a != pc.attempt { AttemptOkFrame(sh, sh', a); }
    }
  }

  // ----- every step -------------------------------------------------------------

  predicate TouchesAttempts(act: Action) {
    || act.TryRefresh? || act.CancelWait? || act.ReadOutcome?
    || act.Launch? || act.FinishAttempt? || act.CloseComplete?
  }

  lemma TouchingGroups(act: Action)
    ensures GroupOf(act).JoinGroup? || GroupOf(act).CloseGroup? ==> TouchesAttempts(act)
  {}

  lemma TickEffect(sh: Shared, t: Thread, pc: Pc, sh': Shared)
    requires sh' == sh.(clock := sh'.clock)
    ensures SameAttempts(sh, sh') && SameDuty(t, pc, pc)
  {}

  lemma LoginEffect(sh: Shared, t: Thread, pc: Pc, act: Action, sh': Shared, pc': Pc)
    requires DoLogin(sh, t, pc, act) == Some((sh', pc')) && !TouchesAttempts(act)
    ensures SameAttempts(sh, sh') && SameDuty(t, pc, pc')
  {}

  lemma LogoutEffect(sh: Shared, t: Thread, pc: Pc, act: Action, sh': Shared, pc': Pc)
    requires DoLogout(sh, t, pc, act) == Some((sh', pc')) && !TouchesAttempts(act)
    ensures SameAttempts(sh, sh') && SameDuty(t, pc, pc')
  {}

  lemma CommitEffect(sh: Shared, t: Thread, pc: Pc, act: Action, sh': Shared, pc': Pc)
    requires DoCommit(sh, t, pc, act) == Some((sh', pc')) && !TouchesAttempts(act)
    ensures SameAttempts(sh, sh') && SameDuty(t, pc, pc')
  {}

  lemma RestoreEffect(sh: Shared, t: Thread, pc: Pc, act: Action, sh': Shared, pc': Pc)
    requires DoRestore(sh, t, pc, act) == Some((sh', pc')) && !TouchesAttempts(act)
    ensures SameAttempts(sh, sh') && SameDuty(t, pc, pc')
  {}

  lemma TokenDuty(sh: Shared, t: Thread, pc: Pc, act: Action, sh': Shared, pc': Pc)
    requires DoToken(sh, t, pc, act) == Some((sh', pc'))
    ensures SameDuty(t, pc, pc')
  {
    hide BlockIntegrity, BlockPermanent;
  }

  lemma TokenLeaves(sh: Shared, t: Thread, pc: Pc, act: Action, sh': Shared, pc': Pc)
    requires DoToken(sh, t, pc, act) == Some((sh', pc'))
    ensures SameAttempts(sh, sh')
  {
    hide BlockIntegrity, BlockPermanent;
  }

  lemma TokenEffect(sh: Shared, t: Thread, pc: Pc, act: Action, sh': Shared, pc': Pc)
    requires DoToken(sh, t, pc, act) == Some((sh', pc')) && !TouchesAttempts(act)
    ensures SameAttempts(sh, sh') && SameDuty(t, pc, pc')
  {
    hide *;
    TokenDuty(sh, t, pc, act, sh', pc');
    TokenLeaves(sh, t, pc, act, sh', pc');
  }

  lemma GrantDuty(sh: Shared, t: Thread, pc: Pc, act: Action, sh': Shared, pc': Pc)
    requires DoGrant(sh, t, pc, act) == Some((sh', pc')) && !TouchesAttempts(act)
    ensures SameDuty(t, pc, pc')
  {
    hide RefreshedState, Install;
  }

  lemma GrantLeaves(sh: Shared, t: Thread, pc: Pc, act: Action, sh': Shared, pc': Pc)
    requires DoGrant(sh, t, pc, act) == Some((sh', pc')) && !TouchesAttempts(act)
    ensures SameAttempts(sh, sh')
  {
    hide RefreshedState;
  }

  lemma GrantEffect(sh: Shared, t: Thread, pc: Pc, act: Action, sh': Shared, pc': Pc)
    requires DoGrant(sh, t, pc, act) == Some((sh', pc')) && !TouchesAttempts(act)
    ensures SameAttempts(sh, sh') && SameDuty(t, pc, pc')
  {
    hide *;
    GrantDuty(sh, t, pc, act, sh', pc');
    GrantLeaves(sh, t, pc, act, sh', pc');
  }

  lemma RefusalDuty(sh: Shared, t: Thread, pc: Pc, act: Action, sh': Shared, pc': Pc)
    requires DoRefusal(sh, t, pc, act) == Some((sh', pc'))
    ensures SameDuty(t, pc, pc')
  {
    hide Install;
  }

  lemma RefusalLeaves(sh: Shared, t: Thread, pc: Pc, act: Action, sh': Shared, pc': Pc)
    requires DoRefusal(sh, t, pc, act) == Some((sh', pc'))
    ensures SameAttempts(sh, sh')
  {}

  lemma RefusalEffect(sh: Shared, t: Thread, pc: Pc, act: Action, sh': Shared, pc': Pc)
    requires DoRefusal(sh, t, pc, act) == Some((sh', pc')) && !TouchesAttempts(act)
    ensures SameAttempts(sh, sh') && SameDuty(t, pc, pc')
  {
    hide *;
    RefusalDuty(sh, t, pc, act, sh', pc');
    RefusalLeaves(sh, t, pc, act, sh', pc');
  }

  lemma LoopDuty(sh: Shared, t: Thread, pc: Pc, act: Action, sh': Shared, pc': Pc)
    requires DoLoop(sh, t, pc, act) == Some((sh', pc')) && !TouchesAttempts(act)
    ensures SameDuty(t, pc, pc')
  {
    hide NextRefresh, FinishClaim, ReleaseClaim;
  }

  lemma LoopLeaves(sh: Shared, t: Thread, pc: Pc, act: Action, sh': Shared, pc': Pc)
    requires DoLoop(sh, t, pc, act) == Some((sh', pc'))
    ensures SameAttempts(sh, sh')
  {
    hide NextRefresh, FinishClaim, HoldsRefreshClaim;
  }

  lemma LoopEffect(sh: Shared, t: Thread, pc: Pc, act: Action, sh': Shared, pc': Pc)
    requires DoLoop(sh, t, pc, act) == Some((sh', pc')) && !TouchesAttempts(act)
    ensures SameAttempts(sh, sh') && SameDuty(t, pc, pc')
  {
    hide *;
    LoopDuty(sh, t, pc, act, sh', pc');
    LoopLeaves(sh, t, pc, act, sh', pc');
  }

  lemma PersistDuty(sh: Shared, t: Thread, pc: Pc, act: Action, sh': Shared, pc': Pc)
    requires DoPersist(sh, t, pc, act) == Some((sh', pc'))
    ensures SameDuty(t, pc, pc')
  {
    hide FinishRetry, HoldsRetryClaim;
  }

  lemma PersistLeaves(sh: Shared, t: Thread, pc: Pc, act: Action, sh': Shared, pc': Pc)
    requires DoPersist(sh, t, pc, act) == Some((sh', pc'))
    ensures SameAttempts(sh, sh')
  {
    hide NextPersistence, FinishRetry, HoldsRetryClaim;
  }

  lemma PersistEffect(sh: Shared, t: Thread, pc: Pc, act: Action, sh': Shared, pc': Pc)
    requires DoPersist(sh, t, pc, act) == Some((sh', pc')) && !TouchesAttempts(act)
    ensures SameAttempts(sh, sh') && SameDuty(t, pc, pc')
  {
    hide *;
    PersistDuty(sh, t, pc, act, sh', pc');
    PersistLeaves(sh, t, pc, act, sh', pc');
  }

  lemma InitEffect(sh: Shared, t: Thread, pc: Pc, act: Action, sh': Shared, pc': Pc)
    requires DoInit(sh, t, pc, act) == Some((sh', pc')) && !TouchesAttempts(act)
    ensures SameAttempts(sh, sh') && SameDuty(t, pc, pc')
  {}

  /** What a caller's program point becomes after one pass. */
  lemma TryEffect(sh: Shared, t: Thread, pc: Pc, ctxDone: bool, sh': Shared, pc': Pc)
    requires DoJoin(sh, t, pc, TryRefresh(ctxDone)) == Some((sh', pc'))
    ensures (pc.TokenTrying? || pc.LoopTrying?) && WaitsOn(pc).None? && Runs(pc').None?
    ensures
      var s := SnapshotOf(pc).value;
      var claimID := if pc.LoopTrying? then pc.claim.id else 0;
      var (begun, entry) := TryBegin(sh, t, s.state, s.revision, claimID);
      && sh' == begun.(ghosts := sh'.ghosts)
      && sh'.ghosts.history == sh.ghosts.history
      && (if entry.Joined? then WaitsOn(pc') == Some(entry.attempt) && SnapshotOf(pc') == SnapshotOf(pc)
          else WaitsOn(pc').None?)
  {
    hide Admit, TryBegin;
    if pc.TokenTrying? { CoreEvents.TryBeginTouches(sh, t, pc.snapshot, pc.revision, 0); }
    if pc.LoopTrying? {
      CoreEvents.TryBeginTouches(sh, t, pc.claim.state, pc.claim.revision, pc.claim.id);
    }
  }

  lemma EnteredKeeps(sh: Shared, t: Thread, pc: Pc, a: nat, sh': Shared, pc': Pc)
    requires AttemptFits(sh, t, pc) && RunFits(sh, t, pc) && Runs(pc).None? && !pc.Idle?
    requires AttemptsOk(sh') && Enters(sh, t, sh', a)
    requires WaitsOn(pc') == Some(a) && Runs(pc').None?
    requires SnapshotOf(pc').Some? && SnapshotOf(pc').value.revision == sh.core.revision
    ensures Keeps(sh, t, sh', pc')
  {}

  lemma JoinedKeeps(sh: Shared, t: Thread, pc: Pc, begun: Shared, a: nat, sh': Shared, pc': Pc)
    requires Keyed(sh) && SnapshotFits(sh, pc) && AttemptsOk(sh) && AttemptFits(sh, t, pc)
    requires (pc.TokenTrying? || pc.LoopTrying?) && WaitsOn(pc).None? && Runs(pc').None?
    requires WaitsOn(pc') == Some(a) && SnapshotOf(pc') == SnapshotOf(pc)
    requires SnapshotOf(pc) == Some(Snapshot(sh.core.state, sh.core.revision))
    requires if sh.current.None? then begun == Lead(sh, t, sh.core.state) && a == sh.nextAttempt
             else
               && sh.current == Some(a)
               && a in sh.attempts
               && sh.attempts[a].revision == sh.core.revision
               && sh.attempts[a].participants > 0
               && begun == Follow(sh, t, a)
    requires sh' == begun.(ghosts := sh'.ghosts) && sh'.ghosts.history == sh.ghosts.history
    ensures Keeps(sh, t, sh', pc')
  {
    hide AttemptsOk, AttemptOk, Enters, Keeps;
    if sh.current.None? {
      LeadKeeps(sh, t, sh.core.state);
    } else {
      FollowKeeps(sh, t, a);
    }
    OnlyGhosts(sh, t, begun, sh', a);
    EnteredKeeps(sh, t, pc, a, sh', pc');
  }

  /** A caller that has joined has done so as leader or follower. */
  lemma TryCases(sh: Shared, t: Thread, pc: Pc, ctxDone: bool, sh': Shared, pc': Pc)
    returns (begun: Shared)
    requires Keyed(sh) && SnapshotFits(sh, pc)
    requires DoJoin(sh, t, pc, TryRefresh(ctxDone)) == Some((sh', pc')) && WaitsOn(pc').Some?
    ensures (pc.TokenTrying? || pc.LoopTrying?) && WaitsOn(pc).None? && Runs(pc').None?
    ensures SnapshotOf(pc') == SnapshotOf(pc) == Some(Snapshot(sh.core.state, sh.core.revision))
    ensures
      var a := WaitsOn(pc').value;
      if sh.current.None? then begun == Lead(sh, t, sh.core.state) && a == sh.nextAttempt
      else
        && sh.current == Some(a)
        && a in sh.attempts
        && sh.attempts[a].revision == sh.core.revision
        && sh.attempts[a].participants > 0
        && begun == Follow(sh, t, a)
    ensures sh' == begun.(ghosts := sh'.ghosts) && sh'.ghosts.history == sh.ghosts.history
  {
    TryEffect(sh, t, pc, ctxDone, sh', pc');
    var s := SnapshotOf(pc).value;
    var claimID := if pc.LoopTrying? then pc.claim.id else 0;
    TryBeginCases(sh, t, s.state, s.revision, claimID);
    begun := TryBegin(sh, t, s.state, s.revision, claimID).0;
    hide TryBegin, Admit, DoJoin, Keyed, SnapshotFits;
  }

  lemma TryFails(sh: Shared, t: Thread, pc: Pc, ctxDone: bool, sh': Shared, pc': Pc)
    requires DoJoin(sh, t, pc, TryRefresh(ctxDone)) == Some((sh', pc')) && WaitsOn(pc').None?
    ensures SameAttempts(sh, sh') && SameDuty(t, pc, pc')
  {
    TryEffect(sh, t, pc, ctxDone, sh', pc');
    var s := SnapshotOf(pc).value;
    TryBeginCases(sh, t, s.state, s.revision, if pc.LoopTrying? then pc.claim.id else 0);
    hide TryBegin, Admit;
  }

  lemma TryKeeps(sh: Shared, t: Thread, pc: Pc, ctxDone: bool, sh': Shared, pc': Pc)
    requires Keyed(sh) && SnapshotFits(sh, pc) && AttemptsOk(sh) && AttemptFits(sh, t, pc)
    requires DoJoin(sh, t, pc, TryRefresh(ctxDone)) == Some((sh', pc'))
    ensures Keeps(sh, t, sh', pc')
  {
    hide *;
    if WaitsOn(pc').Some? {
      var begun := TryCases(sh, t, pc, ctxDone, sh', pc');
      JoinedKeeps(sh, t, pc, begun, WaitsOn(pc').value, sh', pc');
    } else {
      TryFails(sh, t, pc, ctxDone, sh', pc');
      SameAttemptsKeep(sh, t, pc, sh', pc');
    }
  }

  lemma OnlyGhosts(sh: Shared, t: Thread, begun: Shared, sh': Shared, a: nat)
    requires AttemptsOk(begun) && Enters(sh, t, begun, a)
    requires sh' == begun.(ghosts := sh'.ghosts) && sh'.ghosts.history == begun.ghosts.history
    ensures AttemptsOk(sh') && Enters(sh, t, sh', a)
  {
    forall b | b in sh'.attempts ensures AttemptOk(sh', b) {
      AttemptOkFrame(begun, sh', b);
    }
    forall u | u != t ensures RelyAttempts(u, sh, sh') {
      assert RelyAttempts(u, sh, begun);
    }
  }

  lemma LeaveCases(sh: Shared, t: Thread, pc: Pc, act: Action, sh': Shared, pc': Pc)
    requires act.CancelWait? || act.ReadOutcome?
    requires DoJoin(sh, t, pc, act) == Some((sh', pc'))
    ensures if WaitsOn(pc).Some? then
              WaitsOn(pc).value in sh.attempts && sh' == Leave(sh, t, WaitsOn(pc).value)
            else sh' == sh
  {}

  lemma LeavePlaces(sh: Shared, t: Thread, pc: Pc, act: Action, sh': Shared, pc': Pc)
    requires act.CancelWait? || act.ReadOutcome?
    requires DoJoin(sh, t, pc, act) == Some((sh', pc'))
    ensures WaitsOn(pc').None? && Runs(pc').None? && Runs(pc).None? && !pc'.Idle? && !pc.Idle?
  {}

  lemma LeftFits(sh: Shared, t: Thread, pc: Pc, a: nat, pc': Pc)
    requires AttemptFits(sh, t, pc) && WaitsOn(pc) == Some(a) && a in sh.attempts
    requires WaitsOn(pc').None? && Runs(pc').None? && Runs(pc).None? && !pc'.Idle? && !pc.Idle?
    ensures AttemptFits(Leave(sh, t, a), t, pc')
    ensures t in sh.attempts[a].joined
    ensures forall b :: b in sh.attempts && t in sh.attempts[b].joined ==> b == a
  {}

  lemma LeftKeeps(sh: Shared, t: Thread, pc: Pc, a: nat, pc': Pc)
    requires AttemptsOk(sh) && AttemptFits(sh, t, pc) && WaitsOn(pc) == Some(a) && a in sh.attempts
    requires WaitsOn(pc').None? && Runs(pc').None? && Runs(pc).None? && !pc'.Idle? && !pc.Idle?
    ensures Keeps(sh, t, Leave(sh, t, a), pc')
  {
    LeftFits(sh, t, pc, a, pc') by { hide *; }
    LeaveKeeps(sh, t, a);
    LeaveRely(sh, t, a);
    hide AttemptsOk, AttemptFits, RelyAttempts, Leave;
  }

  lemma StillSame(sh: Shared, t: Thread, pc: Pc, pc': Pc)
    requires WaitsOn(pc).None? && WaitsOn(pc').None? && Runs(pc').None? && Runs(pc).None?
    requires !pc'.Idle? && !pc.Idle?
    ensures SameAttempts(sh, sh) && SameDuty(t, pc, pc')
  {}

  lemma LeavingKeeps(sh: Shared, t: Thread, pc: Pc, act: Action, sh': Shared, pc': Pc)
    requires AttemptsOk(sh) && AttemptFits(sh, t, pc)
    requires act.CancelWait? || act.ReadOutcome?
    requires DoJoin(sh, t, pc, act) == Some((sh', pc'))
    ensures Keeps(sh, t, sh', pc')
  {
    hide *;
    LeaveCases(sh, t, pc, act, sh', pc');
    LeavePlaces(sh, t, pc, act, sh', pc');
    if WaitsOn(pc).Some? {
      LeftKeeps(sh, t, pc, WaitsOn(pc).value, pc');
    } else {
      StillSame(sh, t, pc, pc');
      SameAttemptsKeep(sh, t, pc, sh', pc');
    }
  }
}
