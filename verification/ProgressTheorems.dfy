/**
 No part of a Client is ever stuck: in every state of every run, whoever is under way can
 take the next step of its own code, or waits for a lock, a permit or an attempt on which
 another thread can work. Only supervisors sleep, until they are woken.
*/
module ProgressTheorems {
  import opened Base
  import opened Basics
  import opened ClientCore
  import opened CoreEvents
  import opened Errors
  import opened Places
  import opened Protocol
  import opened SessionTheorems
  import opened Tokens
  import A = Attempts
  import G = Generations
  import L = Locks

  datatype Awaited = NobodyAwaited | CommitLock | LifecycleLock | Permit | AttemptEnd(a: nat) | Wakeup

  /** What a thread at `pc` needs before it can go on. */
  function Awaits(sh: Shared, pc: Pc): Awaited {
    match pc
    case LoginLocked(_, _) | LogoutLocked(_) | GrantOk(_, _) | Refusing(_) | LoopEmitting(_)
       | PersistClaimed(_, _) =>
      if sh.commitMu.Some? then CommitLock else NobodyAwaited
    case LoginReady(_, _) | OpFinishing(_) =>
      if sh.lifecycleMu.Some? then LifecycleLock else NobodyAwaited
    case LogoutRemote(_) => if sh.flowPermit.Some? then Permit else NobodyAwaited
    case TokenTrying(_, _) | LoopTrying(_) =>
      // An unfinished attempt that cannot be joined.
      if sh.current.Some? && sh.current.value in sh.attempts
         && (sh.attempts[sh.current.value].revision != sh.core.revision
             || sh.attempts[sh.current.value].participants <= 0)
      then AttemptEnd(sh.current.value) else NobodyAwaited
    case TokenWaiting(a, _, _) =>
      if a in sh.attempts && sh.attempts[a].complete then NobodyAwaited else AttemptEnd(a)
    case LoopJoined(_, a) =>
      if a in sh.attempts && sh.attempts[a].complete then NobodyAwaited else AttemptEnd(a)
    case LoopWaiting(wake, due) =>
      if wake < sh.core.wake || 0 < due <= sh.clock then NobodyAwaited else Wakeup
    case PersistWaiting(wake, due) =>
      if wake < sh.core.wake || 0 < due <= sh.clock then NobodyAwaited else Wakeup
    case _ => NobodyAwaited
  }

  /** The step that the code takes next, with one choice for what its environment answers. */
  function Onward(sh: Shared, pc: Pc): Action {
    match pc
    case Idle => Launch
    case LoginFlow(_) => LoginTokens(ZERO.(lastAuthAt := sh.clock))
    case LoginHandler(_) => HandlerReturns(true)
    case LoginReady(_, _) => LockLifecycle(true)
    case LoginLocked(_, _) => InstallLogin(true)
    case LogoutLocked(_) => ClearState
    case LogoutDeleting(_, _) => DeleteReturns(false, ZERO)
    case LogoutQueueing(_, _) => QueueLoggedOut
    case LogoutRemote(_) => TakePermit(true)
    case LogoutHandler(_) => HandlerReturns(true)
    case OpFinishing(_) => FinishOperation
    case Saving(_, _) => SaveReturns(false, ZERO)
    case Recording(_, _, _) => RecordSaveResult(sh.clock)
    case Queueing(_, _) => QueueCommitEvent
    case RestoreLoading => LoadReturns(false)
    case RestoreInstalling(_) => InstallRestored
    case TokenRead(_, _, _) => JudgeToken(sh.clock)
    case TokenTrying(_, _) => TryRefresh(false)
    case TokenWaiting(_, _, _) => ReadOutcome(false)
    case TokenBlocking(_, _, _) => BlockGeneration(sh.clock)
    case TokenDeciding => DecideToken(sh.clock)
    case Answered(_) => Retire
    case Granting(_) => GrantFails(Transport)
    case GrantFailed(_, _) => FenceFailure
    case GrantOk(_, _) => CommitRefresh
    case Refusing(_) => CheckRefusal
    case RefusalLoading(_) => LoadForRefusal(false)
    case RefusalInstalling(_, _) => InstallRefusal
    case Finishing(_, _) => FinishAttempt(sh.clock)
    case Completing(_) => CloseComplete
    case LoopTop => NextLoopAction(sh.clock)
    case LoopWaiting(_, _) => WakeLoop
    case LoopTrying(_) => TryRefresh(false)
    case LoopJoined(_, _) => ReadOutcome(false)
    case LoopDone(_, _) => FinishLoopAttempt(sh.clock)
    case LoopEmitting(_) => EmitIfCurrent
    case PersistTop => NextPersistAction(sh.clock)
    case PersistWaiting(_, _) => WakeLoop
    case PersistClaimed(_, _) => LockForRetry(true)
    case PersistSaving(_, _) => RetrySaveReturns(false, ZERO)
    case PersistUpdating(_, _, _) => FinishRetrySave(sh.clock)
    case Discovering(_) => FinishInit
  }

  /** The step is available and leads away from `pc`. */
  predicate Moves(sh: Shared, t: Thread, pc: Pc, act: Action) {
    Do(sh, t, pc, act).Some? && Do(sh, t, pc, act).value.1 != pc
  }

  /** What a place tells of the attempts it names. */
  ghost predicate Anchored(sh: Shared, pc: Pc) {
    && sh.clock > 0
    && (Runs(pc).Some? ==> Runs(pc).value in sh.attempts)
    && (WaitsOn(pc).Some? ==> WaitsOn(pc).value in sh.attempts)
    && (forall a :: a in sh.attempts && sh.attempts[a].complete ==> sh.attempts[a].outcome.Some?)
    && (sh.current.Some? ==> sh.current.value in sh.attempts)
  }

  lemma Anchors(s: System, t: Thread)
    requires Inv(s)
    ensures Anchored(s.shared, PcOf(s, t))
  {
    hide G.Fits, L.LocksFit;
    assert Local(s.shared, t, PcOf(s, t));
    forall a | a in s.shared.attempts && s.shared.attempts[a].complete
      ensures s.shared.attempts[a].outcome.Some?
    {
      assert A.AttemptOk(s.shared, a);
    }
  }

  // ----- the next step, part by part --------------------------------------------

  predicate InLogout(pc: Pc) {
    || pc.LogoutLocked? || pc.LogoutDeleting? || pc.LogoutQueueing? || pc.LogoutRemote?
    || pc.LogoutHandler?
  }

  /** The steps of a Logout, and the lock or permit that two of them need. */
  lemma LogoutOnward(sh: Shared, pc: Pc)
    requires InLogout(pc) && Awaits(sh, pc).NobodyAwaited?
    ensures pc.LogoutLocked? ==> Onward(sh, pc) == ClearState && sh.commitMu.None?
    ensures pc.LogoutDeleting? ==> Onward(sh, pc) == DeleteReturns(false, ZERO)
    ensures pc.LogoutQueueing? ==> Onward(sh, pc) == QueueLoggedOut
    ensures pc.LogoutRemote? ==> Onward(sh, pc) == TakePermit(true) && sh.flowPermit.None?
    ensures pc.LogoutHandler? ==> Onward(sh, pc) == HandlerReturns(true)
  {}

  lemma LogoutMoves(sh: Shared, t: Thread, pc: Pc)
    requires InLogout(pc)
    requires Anchored(sh, pc) && Awaits(sh, pc).NobodyAwaited?
    ensures Moves(sh, t, pc, Onward(sh, pc))
  {
    var act := Onward(sh, pc);
    LogoutOnward(sh, pc);
    EveryActionIsGrouped(act);
    Dispatch(sh, t, pc, act);
    hide Do, GroupOf, Install, ClearForLogout, Enqueue, Onward, Awaits, Anchored;
  }

  lemma LoginMoves(sh: Shared, t: Thread, pc: Pc)
    requires PartOf(pc).Operating? && !InLogout(pc)
    requires Anchored(sh, pc) && Awaits(sh, pc).NobodyAwaited?
    ensures Moves(sh, t, pc, Onward(sh, pc))
  {
    var act := Onward(sh, pc);
    EveryActionIsGrouped(act);
    Dispatch(sh, t, pc, act);
    hide Do, GroupOf, Install, ClearForLogout, Enqueue;
  }

  lemma CommitMoves(sh: Shared, t: Thread, pc: Pc)
    requires PartOf(pc).Committing? || PartOf(pc).Restoring?
    requires Anchored(sh, pc) && Awaits(sh, pc).NobodyAwaited?
    ensures Moves(sh, t, pc, Onward(sh, pc))
  {
    var act := Onward(sh, pc);
    EveryActionIsGrouped(act);
    Dispatch(sh, t, pc, act);
    hide Do, GroupOf, RecordSave, Install, Enqueue;
  }

  lemma RefusalMoves(sh: Shared, t: Thread, pc: Pc)
    requires PartOf(pc).InRefusal?
    requires Anchored(sh, pc) && Awaits(sh, pc).NobodyAwaited?
    ensures Moves(sh, t, pc, Onward(sh, pc))
  {
    var act := Onward(sh, pc);
    EveryActionIsGrouped(act);
    Dispatch(sh, t, pc, act);
    hide Do, GroupOf, Install;
  }

  lemma AttemptMoves(sh: Shared, t: Thread, pc: Pc)
    requires PartOf(pc).Attempting?
    requires Anchored(sh, pc) && Awaits(sh, pc).NobodyAwaited?
    ensures Moves(sh, t, pc, Onward(sh, pc))
  {
    var act := Onward(sh, pc);
    EveryActionIsGrouped(act);
    Dispatch(sh, t, pc, act);
    hide Do, GroupOf, Install, CloseAttempt, RefreshedState;
  }

  /** A caller of beginRefreshAttempt either gets in or is turned away. */
  lemma TryMoves(sh: Shared, t: Thread, pc: Pc)
    requires (pc.TokenTrying? || pc.LoopTrying?) && Anchored(sh, pc) && Awaits(sh, pc).NobodyAwaited?
    ensures Moves(sh, t, pc, TryRefresh(false))
  {
    var act := TryRefresh(false);
    EveryActionIsGrouped(act);
    Dispatch(sh, t, pc, act);
    if pc.TokenTrying? {
      NotAgain(sh, t, pc.snapshot, pc.revision, 0);
    } else {
      NotAgain(sh, t, pc.claim.state, pc.claim.revision, pc.claim.id);
    }
    hide Do, GroupOf, TryBegin, ReadResult;
  }

  lemma NotAgain(sh: Shared, t: Thread, snapshot: TokenState, revision: nat, claimID: nat)
    requires sh.current.Some? ==>
               && sh.current.value in sh.attempts
               && sh.attempts[sh.current.value].revision == sh.core.revision
               && sh.attempts[sh.current.value].participants > 0
    ensures !TryBegin(sh, t, snapshot, revision, claimID).1.Again?
  {
    hide Admit;
  }

  lemma AskingMoves(sh: Shared, t: Thread, pc: Pc)
    requires PartOf(pc).Asking?
    requires Anchored(sh, pc) && Awaits(sh, pc).NobodyAwaited? && !pc.TokenTrying?
    ensures Moves(sh, t, pc, Onward(sh, pc))
  {
    var act := Onward(sh, pc);
    EveryActionIsGrouped(act);
    Dispatch(sh, t, pc, act);
    hide Do, GroupOf, BlockIntegrity, BlockPermanent, UsableToken, TryBegin, Leave;
  }

  lemma ClaimMoves(sh: Shared, t: Thread, pc: Pc)
    requires PartOf(pc).Claimed?
    requires Anchored(sh, pc) && Awaits(sh, pc).NobodyAwaited? && !pc.LoopTrying?
    ensures Moves(sh, t, pc, Onward(sh, pc))
  {
    var act := Onward(sh, pc);
    EveryActionIsGrouped(act);
    Dispatch(sh, t, pc, act);
    hide Do, GroupOf, ReleaseClaim, TryBegin, Leave, ReadResult;
  }

  lemma SupervisorMoves(sh: Shared, t: Thread, pc: Pc)
    requires PartOf(pc).Supervising? || PartOf(pc).Sleeping?
    requires Anchored(sh, pc) && Awaits(sh, pc).NobodyAwaited?
    ensures Moves(sh, t, pc, Onward(sh, pc))
  {
    var act := Onward(sh, pc);
    EveryActionIsGrouped(act);
    Dispatch(sh, t, pc, act);
    hide Do, GroupOf, NextRefresh, Enqueue;
  }

  lemma PersistenceMoves(sh: Shared, t: Thread, pc: Pc)
    requires PartOf(pc).Persisting?
    requires Anchored(sh, pc) && Awaits(sh, pc).NobodyAwaited?
    ensures Moves(sh, t, pc, Onward(sh, pc))
  {
    var act := Onward(sh, pc);
    EveryActionIsGrouped(act);
    Dispatch(sh, t, pc, act);
    hide Do, GroupOf, NextPersistence, FinishRetry, HoldsRetryClaim;
  }

  lemma InitMoves(sh: Shared, t: Thread, pc: Pc)
    requires PartOf(pc).Initializing?
    requires Anchored(sh, pc) && Awaits(sh, pc).NobodyAwaited?
    ensures Moves(sh, t, pc, Onward(sh, pc))
  {
    var act := Onward(sh, pc);
    EveryActionIsGrouped(act);
    Dispatch(sh, t, pc, act);
    hide Do, GroupOf, Enqueue;
  }

  /** Whoever is under way and awaits nothing can take the next step. */
  lemma OnwardIsEnabled(r: Run, i: nat, t: Thread)
    requires IsRun(r) && i < |r.states|
    requires !PcOf(r.states[i], t).Idle? && Awaits(At(r, i), PcOf(r.states[i], t)).NobodyAwaited?
    ensures Moves(At(r, i), t, PcOf(r.states[i], t), Onward(At(r, i), PcOf(r.states[i], t)))
  {
    hide Initial, IsStep, Inv;
    RunInv(r, i);
    SystemMoves(r.states[i], t);
  }

  lemma SystemMoves(s: System, t: Thread)
    requires Inv(s) && !PcOf(s, t).Idle? && Awaits(s.shared, PcOf(s, t)).NobodyAwaited?
    ensures Moves(s.shared, t, PcOf(s, t), Onward(s.shared, PcOf(s, t)))
  {
    hide *;
    Anchors(s, t);
    var sh, pc := s.shared, PcOf(s, t);
    OnlyIdleRests(pc);
    Tries(sh, pc);
    match PartOf(pc)
    case Operating => if InLogout(pc) { LogoutMoves(sh, t, pc); } else { LoginMoves(sh, t, pc); }
    case Committing | Restoring => CommitMoves(sh, t, pc);
    case InRefusal => RefusalMoves(sh, t, pc);
    case Attempting => AttemptMoves(sh, t, pc);
    case Asking => if pc.TokenTrying? { TryMoves(sh, t, pc); } else { AskingMoves(sh, t, pc); }
    case Claimed => if pc.LoopTrying? { TryMoves(sh, t, pc); } else { ClaimMoves(sh, t, pc); }
    case Supervising | Sleeping => SupervisorMoves(sh, t, pc);
    case Persisting => PersistenceMoves(sh, t, pc);
    case Initializing => InitMoves(sh, t, pc);
    case Resting =>
  }

  lemma OnlyIdleRests(pc: Pc)
    ensures PartOf(pc).Resting? <==> pc.Idle?
  {}

  lemma Tries(sh: Shared, pc: Pc)
    ensures pc.TokenTrying? || pc.LoopTrying? ==> Onward(sh, pc) == TryRefresh(false)
  {}

  // ----- the environment is free ------------------------------------------------

  /** The answers that a thread at `pc` may get from the world outside the Client: any tokens
      or failure of a token endpoint, any outcome of a Save, Load or Delete, and the end of
      its context at any moment. */
  predicate FromOutside(sh: Shared, pc: Pc, act: Action) {
    match act
    case LoginTokens(tokens) => pc.LoginFlow? && 0 < tokens.lastAuthAt <= sh.clock
    case AbandonOperation => pc.LoginFlow? || pc.LogoutRemote?
    case TakePermit(_) => (pc.LoginFlow? || pc.LogoutRemote?) && sh.flowPermit.None?
    case HandlerReturns(_) => pc.LoginHandler? || pc.LogoutHandler?
    case DeleteReturns(_, _) => pc.LogoutDeleting?
    case SaveReturns(_, _) => pc.Saving?
    case RetrySaveReturns(_, _) => pc.PersistSaving?
    case LoadReturns(_) => pc.RestoreLoading?
    case GrantFails(f) => pc.Granting? && !f.ExpiredBeforeStart? && !f.BlockedPermanently?
    case GrantSucceeds(_) => pc.Granting?
    case LoadForRefusal(_) => pc.RefusalLoading?
    case CancelWait(_) => pc.TokenTrying? || pc.TokenWaiting? || pc.LoopTrying? || pc.LoopJoined?
    case StopLoop => pc.LoopTop? || pc.LoopWaiting? || pc.PersistTop? || pc.PersistWaiting?
    case _ => false
  }

  /** Every such answer is taken, whatever it is. */
  lemma EnvironmentIsFree(r: Run, i: nat, t: Thread, act: Action)
    requires IsRun(r) && i < |r.states| && FromOutside(At(r, i), PcOf(r.states[i], t), act)
    ensures Do(At(r, i), t, PcOf(r.states[i], t), act).Some?
  {
    hide Initial, IsStep, Inv, Do, FromOutside;
    RunInv(r, i);
    Anchors(r.states[i], t);
    AnswerIsTaken(At(r, i), t, PcOf(r.states[i], t), act);
  }

  lemma AnswerIsTaken(sh: Shared, t: Thread, pc: Pc, act: Action)
    requires Anchored(sh, pc) && FromOutside(sh, pc, act)
    ensures Do(sh, t, pc, act).Some?
  {
    EveryActionIsGrouped(act);
    hide *;
    Dispatch(sh, t, pc, act);
    OutsideGroups(sh, pc, act);
    match GroupOf(act)
    case LoginGroup => FlowAnswers(sh, t, pc, act);
    case LogoutGroup | CommitGroup | RestoreGroup => StoreAnswers(sh, t, pc, act);
    case JoinGroup => WaitAnswers(sh, t, pc, act);
    case GrantGroup | RefusalGroup => GrantAnswers(sh, t, pc, act);
    case LoopGroup | PersistGroup => LoopAnswers(sh, t, pc, act);
    case _ =>
  }

  lemma OutsideGroups(sh: Shared, pc: Pc, act: Action)
    requires FromOutside(sh, pc, act)
    ensures
      || act.LoginTokens? || act.AbandonOperation? || act.TakePermit? || act.HandlerReturns?
      || act.DeleteReturns? || act.SaveReturns? || act.RetrySaveReturns? || act.LoadReturns?
      || act.GrantFails? || act.GrantSucceeds? || act.LoadForRefusal? || act.CancelWait? || act.StopLoop?
  {}

  lemma FlowAnswers(sh: Shared, t: Thread, pc: Pc, act: Action)
    requires FromOutside(sh, pc, act)
    requires act.LoginTokens? || act.AbandonOperation? || act.TakePermit? || act.HandlerReturns?
    ensures DoLogin(sh, t, pc, act).Some?
  {}

  lemma StoreAnswers(sh: Shared, t: Thread, pc: Pc, act: Action)
    requires FromOutside(sh, pc, act)
    ensures act.DeleteReturns? ==> DoLogout(sh, t, pc, act).Some?
    ensures act.SaveReturns? ==> DoCommit(sh, t, pc, act).Some?
    ensures act.LoadReturns? ==> DoRestore(sh, t, pc, act).Some?
  {}

  lemma WaitAnswers(sh: Shared, t: Thread, pc: Pc, act: Action)
    requires Anchored(sh, pc) && FromOutside(sh, pc, act) && act.CancelWait?
    ensures DoJoin(sh, t, pc, act).Some?
  {
    hide TryBegin;
  }

  lemma GrantAnswers(sh: Shared, t: Thread, pc: Pc, act: Action)
    requires Anchored(sh, pc) && FromOutside(sh, pc, act)
    ensures act.GrantFails? || act.GrantSucceeds? ==> DoGrant(sh, t, pc, act).Some?
    ensures act.LoadForRefusal? ==> DoRefusal(sh, t, pc, act).Some?
  {
    hide RefreshedState;
  }

  lemma LoopAnswers(sh: Shared, t: Thread, pc: Pc, act: Action)
    requires FromOutside(sh, pc, act)
    ensures act.StopLoop? ==> DoLoop(sh, t, pc, act).Some?
    ensures act.RetrySaveReturns? ==> DoPersist(sh, t, pc, act).Some?
  {
    hide NextRefresh, NextPersistence;
  }

  // ----- who is awaited can go on -----------------------------------------------

  // The owner of the lifecycle lock and the goroutine of an attempt may wait for the commit
  // lock; the owners of the commit lock and of the permit wait for nothing.

  lemma CommitOwner(s: System, u: Thread)
    requires Inv(s) && s.shared.commitMu == Some(u)
    ensures !PcOf(s, u).Idle? && Awaits(s.shared, PcOf(s, u)).NobodyAwaited?
  {
    hide G.Fits, A.AttemptFits;
    assert Local(s.shared, u, PcOf(s, u));
  }

  lemma LifecycleOwner(s: System, u: Thread)
    requires Inv(s) && s.shared.lifecycleMu == Some(u)
    ensures !PcOf(s, u).Idle?
    ensures Awaits(s.shared, PcOf(s, u)) in {NobodyAwaited, CommitLock}
  {
    hide G.Fits, A.AttemptFits;
    assert Local(s.shared, u, PcOf(s, u));
  }

  lemma PermitOwner(s: System, u: Thread)
    requires Inv(s) && s.shared.flowPermit == Some(u)
    ensures !PcOf(s, u).Idle? && Awaits(s.shared, PcOf(s, u)).NobodyAwaited?
  {
    hide G.Fits, A.AttemptFits;
    assert Local(s.shared, u, PcOf(s, u));
  }

  /** An attempt that has not ended is worked on by its goroutine, or can be launched. */
  lemma AttemptOwner(s: System, a: nat)
    requires Inv(s) && a in s.shared.attempts && !s.shared.attempts[a].complete
    ensures
      var u := Goroutine(a);
      if PcOf(s, u).Idle? then Moves(s.shared, u, Idle, Launch)
      else Awaits(s.shared, PcOf(s, u)) in {NobodyAwaited, CommitLock}
  {
    hide G.Fits, L.LocksFit, Do;
    assert Local(s.shared, Goroutine(a), PcOf(s, Goroutine(a)));
    if PcOf(s, Goroutine(a)).Idle? {
      LaunchMoves(s.shared, a);
    }
  }

  lemma LaunchMoves(sh: Shared, a: nat)
    requires a in sh.attempts && !sh.attempts[a].launched
    ensures Moves(sh, Goroutine(a), Idle, Launch)
  {
    EveryActionIsGrouped(Launch);
    Dispatch(sh, Goroutine(a), Idle, Launch);
    hide Do, GroupOf;
  }

  /** What is awaited is held by somebody, or is an unfinished attempt. */
  lemma AwaitedExists(s: System, t: Thread)
    requires Inv(s)
    ensures
      match Awaits(s.shared, PcOf(s, t))
      case CommitLock => s.shared.commitMu.Some?
      case LifecycleLock => s.shared.lifecycleMu.Some?
      case Permit => s.shared.flowPermit.Some?
      case AttemptEnd(a) => a in s.shared.attempts && !s.shared.attempts[a].complete
      case NobodyAwaited => true
      case Wakeup => PartOf(PcOf(s, t)).Sleeping?
  {
    hide G.Fits, L.LocksFit;
    assert Local(s.shared, t, PcOf(s, t));
    if s.shared.current.Some? {
      assert A.AttemptOk(s.shared, s.shared.current.value);
    }
  }

  /** Somebody takes a step of their code. */
  ghost predicate SomebodyMoves(s: System) {
    exists u :: Moves(s.shared, u, PcOf(s, u), Onward(s.shared, PcOf(s, u)))
  }

  lemma CommitLockMoves(s: System)
    requires Inv(s) && s.shared.commitMu.Some?
    ensures SomebodyMoves(s)
  {
    hide Inv, Moves, Awaits, Onward;
    CommitOwner(s, s.shared.commitMu.value);
    SystemMoves(s, s.shared.commitMu.value);
  }

  /** In every state, if any thread is under way and not asleep, some thread can take the
      next step of its code: it, or one that it waits for. */
  lemma NobodyIsStuck(r: Run, i: nat, t: Thread)
    requires IsRun(r) && i < |r.states|
    requires !PcOf(r.states[i], t).Idle? && Awaits(At(r, i), PcOf(r.states[i], t)) != Wakeup
    ensures SomebodyMoves(r.states[i])
  {
    hide Initial, IsStep, Inv, Moves, Awaits, Onward;
    RunInv(r, i);
    var s := r.states[i];
    AwaitedExists(s, t);
    match Awaits(s.shared, PcOf(s, t))
    case NobodyAwaited => SystemMoves(s, t);
    case CommitLock => CommitLockMoves(s);
    case LifecycleLock =>
      LifecycleOwner(s, s.shared.lifecycleMu.value);
      OwnerMoves(s, s.shared.lifecycleMu.value);
    case Permit =>
      PermitOwner(s, s.shared.flowPermit.value);
      SystemMoves(s, s.shared.flowPermit.value);
    case AttemptEnd(a) =>
      AttemptOwner(s, a);
      if PcOf(s, Goroutine(a)).Idle? {
        LaunchIsOnward(s.shared);
        assert Moves(s.shared, Goroutine(a), PcOf(s, Goroutine(a)), Onward(s.shared, PcOf(s, Goroutine(a))));
      } else {
        OwnerMoves(s, Goroutine(a));
      }
  }

  lemma LaunchIsOnward(sh: Shared)
    ensures Onward(sh, Idle) == Launch
  {}

  lemma OwnerMoves(s: System, u: Thread)
    requires Inv(s) && !PcOf(s, u).Idle?
    requires Awaits(s.shared, PcOf(s, u)) in {NobodyAwaited, CommitLock}
    ensures SomebodyMoves(s)
  {
    hide Inv, Moves, Awaits, Onward;
    AwaitedExists(s, u);
    if Awaits(s.shared, PcOf(s, u)).NobodyAwaited? {
      SystemMoves(s, u);
    } else {
      CommitLockMoves(s);
    }
  }
}
