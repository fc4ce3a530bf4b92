/**
 Every step changes the state that `mu` guards by one of the critical sections of
 Core.dfy; what holds of each of them holds of every step.
*/
module CoreEvents {
  import opened Basics
  import opened ClientCore
  import opened Errors
  import opened Protocol
  import opened Tokens

  datatype Event =
    | Nothing
    | Installed(state: TokenState)
    | Cleared
    | Discovered(discovery: Discovery)
    | SaveRecorded(revision: nat, failed: bool, now: Time)
    | IntegrityBlocked(revision: nat, now: Time)
    | PermanentBlocked(revision: nat, snapshot: TokenState, now: Time)
    | AttemptFailed(revision: nat, snapshot: TokenState, failure: Failure, abandoned: bool, now: Time)
    | RefreshDecided(now: Time)
    | ClaimFinished(claim: Claim, result: AttemptResult, now: Time)
    | PersistenceDecided(now: Time)
    | RetryAbandoned
    | RetryFinished(revision: nat, id: nat, failed: bool, now: Time)

  function Apply(c: Core, e: Event): Core {
    match e
    case Nothing => c
    case Installed(state) => Advance(c, state)
    case Cleared => ClearForLogout(c)
    case Discovered(snapshot) => CommitDiscovery(c, snapshot)
    case SaveRecorded(r, failed, now) => RecordSave(c, r, failed, now)
    case IntegrityBlocked(r, now) => BlockIntegrity(c, r, now)
    case PermanentBlocked(r, s, now) => BlockPermanent(c, r, s, now)
    case AttemptFailed(r, s, f, abandoned, now) => RecordFailure(c, r, s, f, abandoned, now)
    case RefreshDecided(now) => NextRefresh(c, now).0
    case ClaimFinished(claim, result, now) => FinishClaim(c, claim, result, now)
    case PersistenceDecided(now) => NextPersistence(c, now).0
    case RetryAbandoned => AbandonRetry(c)
    case RetryFinished(r, id, failed, now) => FinishRetry(c, r, id, failed, now)
  }

  /** The clock only moves forward, and these histories are extended by particular actions
      only. */
  ghost predicate Untouched(sh: Shared, act: Action, sh': Shared) {
    && sh.clock <= sh'.clock
    && (!act.FinishAttempt? ==>
          && sh'.ghosts.inconclusive == sh.ghosts.inconclusive
          && sh'.ghosts.integrityFailed == sh.ghosts.integrityFailed)
    && (!act.ClearState? ==> sh'.ghosts.tombstone == sh.ghosts.tombstone)
    && (!act.ClearState? && !act.InstallLogin? ==> sh'.ghosts.commits == sh.ghosts.commits)
    && (!act.NextLoopAction? ==> sh'.ghosts.emitted == sh.ghosts.emitted)
    && (!act.QueueLoggedOut? && !act.QueueCommitEvent? && !act.EmitIfCurrent? && !act.FailInit? ==>
          sh'.ghosts.log == sh.ghosts.log)
    && (!act.BeginInit? && !act.CommitInit? && !act.FailInit? && !act.FinishInit? ==>
          && sh'.initSeq == sh.initSeq
          && sh'.initOperation == sh.initOperation
          && sh'.ghosts.initCommits == sh.ghosts.initCommits)
    && (sh'.core.revision == sh.core.revision ==>
          && (!act.TryRefresh? ==>
                && sh'.ghosts.starts == sh.ghosts.starts
                && sh'.ghosts.startCount == sh.ghosts.startCount)
          && (!act.FinishLoopAttempt? ==>
                sh'.ghosts.lastCompletion == sh.ghosts.lastCompletion)
          && (!act.NextLoopAction? && !act.FinishLoopAttempt? ==>
                sh'.ghosts.refreshHolder == sh.ghosts.refreshHolder)
          && (!act.ClearState? && !act.NextPersistAction? && !act.LockForRetry?
              && !act.FinishRetrySave? ==>
                sh'.ghosts.retryHolder == sh.ghosts.retryHolder))
    && (sh'.core.revision != sh.core.revision ==>
          && sh'.core.revision == sh.core.revision + 1
          && !sh'.core.schedule.valid && !sh'.core.retry.valid
          && sh'.ghosts.starts == {} && sh'.ghosts.startCount == 0
          && sh'.ghosts.lastCompletion == None)
    && (sh'.core.retry.valid && !act.RecordSaveResult? && !act.FinishRetrySave? ==>
          && sh'.ghosts.saveFailures == sh.ghosts.saveFailures
          && sh'.ghosts.lastSaveFailure == sh.ghosts.lastSaveFailure)
  }

  /** The part of the client a thread is in. */
  datatype Part =
    | Resting
    | Operating
    | Committing
    | Restoring
    | Asking
    | Attempting
    | InRefusal
    | Supervising
    | Claimed
    | Sleeping
    | Persisting
    | Initializing

  function PartOf(pc: Pc): Part {
    match pc
    case Idle => Resting
    case LoginFlow(_) | LoginHandler(_) | LoginReady(_, _) | LoginLocked(_, _)
       | LogoutLocked(_) | LogoutDeleting(_, _) | LogoutQueueing(_, _) | LogoutRemote(_)
       | LogoutHandler(_) | OpFinishing(_) => Operating
    case Saving(_, _) | Recording(_, _, _) | Queueing(_, _) => Committing
    case RestoreLoading | RestoreInstalling(_) => Restoring
    case TokenRead(_, _, _) | TokenTrying(_, _) | TokenWaiting(_, _, _) | TokenBlocking(_, _, _)
       | TokenDeciding | Answered(_) => Asking
    case Granting(_) | GrantFailed(_, _) | GrantOk(_, _) | Refusing(_)
       | Finishing(_, _) | Completing(_) => Attempting
    case RefusalLoading(_) | RefusalInstalling(_, _) => InRefusal
    case LoopTop | LoopEmitting(_) => Supervising
    case LoopTrying(_) | LoopJoined(_, _) | LoopDone(_, _) => Claimed
    case LoopWaiting(_, _) | PersistWaiting(_, _) => Sleeping
    case PersistTop | PersistClaimed(_, _) | PersistSaving(_, _) | PersistUpdating(_, _, _) =>
      Persisting
    case Discovering(_) => Initializing
  }

  /** What an available action does to the guarded state. */
  function EffectOf(sh: Shared, pc: Pc, act: Action): Event {
    match act
    case InstallLogin(alive) =>
      if pc.LoginLocked? && Current(sh, pc.op, alive) then Installed(pc.next) else Nothing
    case ClearState => Cleared
    case RecordSaveResult(now) =>
      if pc.Recording? then SaveRecorded(pc.revision, pc.failed, now) else Nothing
    case InstallRestored =>
      if pc.RestoreInstalling? && sh.core.state != pc.loaded then Installed(pc.loaded) else Nothing
    case BlockGeneration(now) =>
      if !pc.TokenBlocking? then Nothing
      else if pc.failure.IntegrityFailure? then IntegrityBlocked(pc.revision, now)
      else if Permanent(pc.failure) then PermanentBlocked(pc.revision, pc.snapshot, now)
      else Nothing
    case CommitRefresh =>
      if pc.GrantOk? && pc.attempt in sh.attempts
         && sh.core.revision == sh.attempts[pc.attempt].revision
      then Installed(pc.next) else Nothing
    case InstallRefusal =>
      if pc.RefusalInstalling? && pc.attempt in sh.attempts
         && sh.core.revision == sh.attempts[pc.attempt].revision
      then Installed(RefusedState(sh.attempts[pc.attempt].snapshot)) else Nothing
    case FinishAttempt(now) =>
      if pc.Finishing? && pc.attempt in sh.attempts && pc.outcome.failure.Some? then
        var at := sh.attempts[pc.attempt];
        AttemptFailed(at.revision, at.snapshot, pc.outcome.failure.value, at.cancelled, now)
      else Nothing
    case NextLoopAction(now) => RefreshDecided(now)
    case FinishLoopAttempt(now) =>
      if pc.LoopDone? then ClaimFinished(pc.claim, pc.result, now) else Nothing
    case NextPersistAction(now) => PersistenceDecided(now)
    case LockForRetry(alive) =>
      if pc.PersistClaimed? && HoldsRetryClaim(sh.core, pc.revision, pc.id) && !alive
      then RetryAbandoned else Nothing
    case FinishRetrySave(now) =>
      if pc.PersistUpdating? then RetryFinished(pc.revision, pc.id, pc.failed, now) else Nothing
    case CommitInit(snapshot, _) => Discovered(snapshot)
    case _ => Nothing
  }

  lemma LoginPlaces(sh: Shared, t: Thread, pc: Pc, act: Action, sh': Shared, pc': Pc)
    requires DoLogin(sh, t, pc, act) == Some((sh', pc'))
    ensures PartOf(pc') in {Operating, Committing, Resting}
    ensures pc' != pc ==> Arrives(act, PartOf(pc'))
    ensures pc' == pc ==> Stays(act)
  {}

  lemma LoginActions(sh: Shared, t: Thread, pc: Pc, act: Action)
    ensures DoLogin(sh, t, pc, act).Some? ==> GroupOf(act).LoginGroup?
  {}

  lemma NoLoginEffect(sh: Shared, pc: Pc, act: Action)
    ensures GroupOf(act).LoginGroup? && !act.InstallLogin? ==> EffectOf(sh, pc, act) == Nothing
  {}

  lemma NothingApplies(c: Core)
    ensures Apply(c, Nothing) == c
  {}

  /** What the browser flow of a Login touches. */
  lemma FlowTouches(sh: Shared, t: Thread, pc: Pc, act: Action, sh': Shared, pc': Pc)
    requires !act.InstallLogin? && DoLogin(sh, t, pc, act) == Some((sh', pc'))
    ensures sh' == sh.(lifecycleMu := sh'.lifecycleMu, lifecycleSeq := sh'.lifecycleSeq,
                       operation := sh'.operation, flowPermit := sh'.flowPermit,
                       ghosts := sh.ghosts.(admitted := sh'.ghosts.admitted))
  {
    hide Install;
  }

  lemma FlowUntouched(sh: Shared, act: Action, sh': Shared)
    requires sh' == sh.(lifecycleMu := sh'.lifecycleMu, lifecycleSeq := sh'.lifecycleSeq,
                        operation := sh'.operation, flowPermit := sh'.flowPermit,
                        ghosts := sh.ghosts.(admitted := sh'.ghosts.admitted))
    ensures Untouched(sh, act, sh') && sh'.core == sh.core
  {}

  lemma FlowCore(sh: Shared, t: Thread, pc: Pc, act: Action, sh': Shared, pc': Pc)
    requires !act.InstallLogin? && DoLogin(sh, t, pc, act) == Some((sh', pc'))
    ensures sh'.core == Apply(sh.core, EffectOf(sh, pc, act))
    ensures Untouched(sh, act, sh')
  {
    hide *;
    LoginActions(sh, t, pc, act);
    NoLoginEffect(sh, pc, act);
    NothingApplies(sh.core);
    FlowTouches(sh, t, pc, act, sh', pc');
    FlowUntouched(sh, act, sh');
  }

  lemma InstallLoginCore(sh: Shared, t: Thread, pc: Pc, act: Action, sh': Shared, pc': Pc)
    requires act.InstallLogin? && DoLogin(sh, t, pc, act) == Some((sh', pc'))
    ensures sh'.core == Apply(sh.core, EffectOf(sh, pc, act))
    ensures Untouched(sh, act, sh')
  {}

  lemma LoginCore(sh: Shared, t: Thread, pc: Pc, act: Action, sh': Shared, pc': Pc)
    requires DoLogin(sh, t, pc, act) == Some((sh', pc'))
    ensures sh'.core == Apply(sh.core, EffectOf(sh, pc, act))
    ensures Untouched(sh, act, sh')
  {
    hide *;
    if act.InstallLogin? {
      InstallLoginCore(sh, t, pc, act, sh', pc');
    } else {
      FlowCore(sh, t, pc, act, sh', pc');
    }
  }

  lemma LoginEvent(sh: Shared, t: Thread, pc: Pc, act: Action, sh': Shared, pc': Pc)
    requires DoLogin(sh, t, pc, act) == Some((sh', pc'))
    ensures sh'.core == Apply(sh.core, EffectOf(sh, pc, act))
    ensures Untouched(sh, act, sh')
    ensures PartOf(pc') in {Operating, Committing, Resting}
    ensures pc' != pc ==> Arrives(act, PartOf(pc'))
    ensures pc' == pc ==> Stays(act)
  {
    hide *;
    LoginPlaces(sh, t, pc, act, sh', pc');
    LoginCore(sh, t, pc, act, sh', pc');
  }

  lemma LogoutEvent(sh: Shared, t: Thread, pc: Pc, act: Action, sh': Shared, pc': Pc)
    requires DoLogout(sh, t, pc, act) == Some((sh', pc'))
    ensures sh'.core == Apply(sh.core, EffectOf(sh, pc, act))
    ensures Untouched(sh, act, sh')
    ensures PartOf(pc') in {Resting, Operating}
    ensures pc' != pc ==> Arrives(act, PartOf(pc'))
    ensures pc' == pc ==> Stays(act)
  {}

  lemma CommitEvent(sh: Shared, t: Thread, pc: Pc, act: Action, sh': Shared, pc': Pc)
    requires DoCommit(sh, t, pc, act) == Some((sh', pc'))
    ensures sh'.core == Apply(sh.core, EffectOf(sh, pc, act))
    ensures Untouched(sh, act, sh')
    ensures PartOf(pc') in {Committing, Operating, Attempting}
    ensures pc' != pc ==> Arrives(act, PartOf(pc'))
    ensures pc' == pc ==> Stays(act)
  {}

  lemma RestoreEvent(sh: Shared, t: Thread, pc: Pc, act: Action, sh': Shared, pc': Pc)
    requires DoRestore(sh, t, pc, act) == Some((sh', pc'))
    ensures sh'.core == Apply(sh.core, EffectOf(sh, pc, act))
    ensures Untouched(sh, act, sh')
    ensures PartOf(pc') in {Restoring, Resting}
    ensures pc' != pc ==> Arrives(act, PartOf(pc'))
    ensures pc' == pc ==> Stays(act)
  {}

  lemma TokenEvent(sh: Shared, t: Thread, pc: Pc, act: Action, sh': Shared, pc': Pc)
    requires DoToken(sh, t, pc, act) == Some((sh', pc'))
    ensures sh'.core == Apply(sh.core, EffectOf(sh, pc, act))
    ensures Untouched(sh, act, sh')
    ensures PartOf(pc') in {Asking, Resting}
    ensures pc' != pc ==> Arrives(act, PartOf(pc'))
    ensures pc' == pc ==> Stays(act)
  {}

  lemma TryBeginTouches(sh: Shared, t: Thread, snapshot: TokenState, revision: nat, claimID: nat)
    ensures
      var sh' := TryBegin(sh, t, snapshot, revision, claimID).0;
      sh' == sh.(attempts := sh'.attempts, current := sh'.current, nextAttempt := sh'.nextAttempt)
  {}

  lemma JoinPlaces(sh: Shared, t: Thread, pc: Pc, act: Action, sh': Shared, pc': Pc)
    requires DoJoin(sh, t, pc, act) == Some((sh', pc'))
    ensures PartOf(pc') in {Asking, Claimed}
    ensures pc' != pc ==> Arrives(act, PartOf(pc'))
    ensures pc' == pc ==> Stays(act)
  {}

  lemma JoinActions(sh: Shared, t: Thread, pc: Pc, act: Action)
    ensures DoJoin(sh, t, pc, act).Some? ==>
              act.TryRefresh? || act.CancelWait? || act.ReadOutcome?
  {
    hide TryBegin;
  }

  lemma NoJoinEffect(sh: Shared, pc: Pc, act: Action)
    ensures act.TryRefresh? || act.CancelWait? || act.ReadOutcome? ==>
              EffectOf(sh, pc, act) == Nothing
  {}

  /** What joining and leaving an attempt touches. */
  lemma JoinTouches(sh: Shared, t: Thread, pc: Pc, act: Action, sh': Shared, pc': Pc)
    requires DoJoin(sh, t, pc, act) == Some((sh', pc'))
    ensures sh' == sh.(attempts := sh'.attempts, current := sh'.current,
                       nextAttempt := sh'.nextAttempt,
                       ghosts := sh.ghosts.(starts := sh'.ghosts.starts,
                                            startCount := sh'.ghosts.startCount))
    ensures !act.TryRefresh? ==> sh'.ghosts == sh.ghosts
  {
    hide Admit, TryBegin;
    if pc.TokenTrying? { TryBeginTouches(sh, t, pc.snapshot, pc.revision, 0); }
    if pc.LoopTrying? { TryBeginTouches(sh, t, pc.claim.state, pc.claim.revision, pc.claim.id); }
  }

  lemma JoinUntouched(sh: Shared, act: Action, sh': Shared)
    requires act.TryRefresh? || act.CancelWait? || act.ReadOutcome?
    requires sh' == sh.(attempts := sh'.attempts, current := sh'.current,
                        nextAttempt := sh'.nextAttempt,
                        ghosts := sh.ghosts.(starts := sh'.ghosts.starts,
                                             startCount := sh'.ghosts.startCount))
    requires !act.TryRefresh? ==> sh'.ghosts == sh.ghosts
    ensures Untouched(sh, act, sh') && sh'.core == sh.core
  {}

  lemma JoinCore(sh: Shared, t: Thread, pc: Pc, act: Action, sh': Shared, pc': Pc)
    requires DoJoin(sh, t, pc, act) == Some((sh', pc'))
    ensures sh'.core == Apply(sh.core, EffectOf(sh, pc, act))
    ensures Untouched(sh, act, sh')
  {
    hide *;
    JoinActions(sh, t, pc, act);
    NoJoinEffect(sh, pc, act);
    NothingApplies(sh.core);
    JoinTouches(sh, t, pc, act, sh', pc');
    JoinUntouched(sh, act, sh');
  }

  lemma JoinEvent(sh: Shared, t: Thread, pc: Pc, act: Action, sh': Shared, pc': Pc)
    requires DoJoin(sh, t, pc, act) == Some((sh', pc'))
    ensures sh'.core == Apply(sh.core, EffectOf(sh, pc, act))
    ensures Untouched(sh, act, sh')
    ensures PartOf(pc') in {Asking, Claimed}
    ensures pc' != pc ==> Arrives(act, PartOf(pc'))
    ensures pc' == pc ==> Stays(act)
  {
    hide *;
    JoinPlaces(sh, t, pc, act, sh', pc');
    JoinCore(sh, t, pc, act, sh', pc');
  }

  lemma GrantPlaces(sh: Shared, t: Thread, pc: Pc, act: Action, sh': Shared, pc': Pc)
    requires DoGrant(sh, t, pc, act) == Some((sh', pc'))
    ensures PartOf(pc') in {Attempting, Committing}
    ensures pc' != pc ==> Arrives(act, PartOf(pc'))
    ensures pc' == pc ==> Stays(act)
  {
    hide RefreshedState;
  }

  lemma GrantCore(sh: Shared, t: Thread, pc: Pc, act: Action, sh': Shared, pc': Pc)
    requires DoGrant(sh, t, pc, act) == Some((sh', pc'))
    ensures sh'.core == Apply(sh.core, EffectOf(sh, pc, act))
    ensures Untouched(sh, act, sh')
  {
    hide RefreshedState;
  }

  lemma GrantEvent(sh: Shared, t: Thread, pc: Pc, act: Action, sh': Shared, pc': Pc)
    requires DoGrant(sh, t, pc, act) == Some((sh', pc'))
    ensures sh'.core == Apply(sh.core, EffectOf(sh, pc, act))
    ensures Untouched(sh, act, sh')
    ensures PartOf(pc') in {Attempting, Committing}
    ensures pc' != pc ==> Arrives(act, PartOf(pc'))
    ensures pc' == pc ==> Stays(act)
  {
    hide *;
    GrantPlaces(sh, t, pc, act, sh', pc');
    GrantCore(sh, t, pc, act, sh', pc');
  }

  lemma RefusalEvent(sh: Shared, t: Thread, pc: Pc, act: Action, sh': Shared, pc': Pc)
    requires DoRefusal(sh, t, pc, act) == Some((sh', pc'))
    ensures sh'.core == Apply(sh.core, EffectOf(sh, pc, act))
    ensures Untouched(sh, act, sh')
    ensures PartOf(pc') in {Attempting, InRefusal, Committing}
    ensures pc' != pc ==> Arrives(act, PartOf(pc'))
    ensures pc' == pc ==> Stays(act)
  {}

  lemma CloseEvent(sh: Shared, t: Thread, pc: Pc, act: Action, sh': Shared, pc': Pc)
    requires DoClose(sh, t, pc, act) == Some((sh', pc'))
    ensures sh'.core == Apply(sh.core, EffectOf(sh, pc, act))
    ensures Untouched(sh, act, sh')
    ensures PartOf(pc') in {Attempting, Resting}
    ensures pc' != pc ==> Arrives(act, PartOf(pc'))
    ensures pc' == pc ==> Stays(act)
  {}

  lemma LoopPlaces(sh: Shared, t: Thread, pc: Pc, act: Action, sh': Shared, pc': Pc)
    requires DoLoop(sh, t, pc, act) == Some((sh', pc'))
    ensures PartOf(pc') in {Supervising, Persisting, Resting} || act.NextLoopAction?
    ensures pc' != pc ==> Arrives(act, PartOf(pc'))
    ensures pc' == pc ==> Stays(act)
  {}

  lemma DecisionCore(sh: Shared, t: Thread, pc: Pc, act: Action, sh': Shared, pc': Pc)
    requires act.NextLoopAction? && DoLoop(sh, t, pc, act) == Some((sh', pc'))
    ensures sh'.core == Apply(sh.core, EffectOf(sh, pc, act))
    ensures Untouched(sh, act, sh')
  {}

  lemma LoopCore(sh: Shared, t: Thread, pc: Pc, act: Action, sh': Shared, pc': Pc)
    requires DoLoop(sh, t, pc, act) == Some((sh', pc'))
    ensures sh'.core == Apply(sh.core, EffectOf(sh, pc, act))
    ensures Untouched(sh, act, sh')
  {
    if act.NextLoopAction? {
      hide NextRefresh;
      DecisionCore(sh, t, pc, act, sh', pc');
    }
  }

  lemma LoopEvent(sh: Shared, t: Thread, pc: Pc, act: Action, sh': Shared, pc': Pc)
    requires DoLoop(sh, t, pc, act) == Some((sh', pc'))
    ensures sh'.core == Apply(sh.core, EffectOf(sh, pc, act))
    ensures Untouched(sh, act, sh')
    ensures PartOf(pc') in {Supervising, Persisting, Resting} || act.NextLoopAction?
    ensures pc' != pc ==> Arrives(act, PartOf(pc'))
    ensures pc' == pc ==> Stays(act)
  {
    hide *;
    LoopPlaces(sh, t, pc, act, sh', pc');
    LoopCore(sh, t, pc, act, sh', pc');
  }

  lemma PersistPlaces(sh: Shared, t: Thread, pc: Pc, act: Action, sh': Shared, pc': Pc)
    requires DoPersist(sh, t, pc, act) == Some((sh', pc'))
    ensures PartOf(pc') == Persisting || act.NextPersistAction?
    ensures pc' != pc ==> Arrives(act, PartOf(pc'))
    ensures pc' == pc ==> Stays(act)
  {
    hide FinishRetry, HoldsRetryClaim, AbandonRetry;
  }

  lemma PersistCore(sh: Shared, t: Thread, pc: Pc, act: Action, sh': Shared, pc': Pc)
    requires DoPersist(sh, t, pc, act) == Some((sh', pc'))
    ensures sh'.core == Apply(sh.core, EffectOf(sh, pc, act))
    ensures Untouched(sh, act, sh')
  {}

  lemma PersistEvent(sh: Shared, t: Thread, pc: Pc, act: Action, sh': Shared, pc': Pc)
    requires DoPersist(sh, t, pc, act) == Some((sh', pc'))
    ensures sh'.core == Apply(sh.core, EffectOf(sh, pc, act))
    ensures Untouched(sh, act, sh')
    ensures PartOf(pc') == Persisting || act.NextPersistAction?
    ensures pc' != pc ==> Arrives(act, PartOf(pc'))
    ensures pc' == pc ==> Stays(act)
  {
    hide *;
    PersistPlaces(sh, t, pc, act, sh', pc');
    PersistCore(sh, t, pc, act, sh', pc');
  }

  lemma InitEvent(sh: Shared, t: Thread, pc: Pc, act: Action, sh': Shared, pc': Pc)
    requires DoInit(sh, t, pc, act) == Some((sh', pc'))
    ensures sh'.core == Apply(sh.core, EffectOf(sh, pc, act))
    ensures Untouched(sh, act, sh')
    ensures PartOf(pc') in {Initializing, Resting}
    ensures pc' != pc ==> Arrives(act, PartOf(pc'))
    ensures pc' == pc ==> Stays(act)
  {}

  /** The actions after which a thread may be where it was. */
  predicate Stays(act: Action) {
    act.Tick? || act.BeginLogout? || act.BeginRestore? || act.TryRefresh?
  }

  /** The actions that lead into a part of the client. */
  predicate Arrives(act: Action, part: Part) {
    match part
    case Sleeping => act.NextLoopAction? || act.NextPersistAction?
    case Claimed => act.NextLoopAction? || act.TryRefresh? || act.CancelWait? || act.ReadOutcome?
    case Supervising =>
      || act.StartLoop? || act.NextLoopAction? || act.WakeLoop? || act.FinishLoopAttempt?
      || act.EmitIfCurrent?
    case InRefusal => act.CheckRefusal? || act.LoadForRefusal?
    case Committing =>
      || act.InstallLogin? || act.CommitRefresh? || act.InstallRefusal?
      || act.SaveReturns? || act.RecordSaveResult?
    case Restoring => act.BeginRestore? || act.LoadReturns?
    case Asking =>
      || act.BeginToken? || act.JudgeToken? || act.BlockGeneration? || act.DecideToken?
      || act.TryRefresh? || act.CancelWait? || act.ReadOutcome?
    case Attempting =>
      || act.Launch? || act.GrantFails? || act.GrantSucceeds? || act.FenceFailure?
      || act.CommitRefresh? || act.CheckRefusal? || act.LoadForRefusal? || act.InstallRefusal?
      || act.FinishAttempt? || act.QueueCommitEvent?
    case _ => true
  }

  lemma StepEvent(sh: Shared, t: Thread, pc: Pc, act: Action, sh': Shared, pc': Pc)
    requires Do(sh, t, pc, act) == Some((sh', pc'))
    ensures sh'.core == Apply(sh.core, EffectOf(sh, pc, act))
    ensures Untouched(sh, act, sh')
    ensures pc' != pc ==> Arrives(act, PartOf(pc'))
    ensures pc' == pc ==> Stays(act)
  {
    EveryActionIsGrouped(act);
    hide *;
    Dispatch(sh, t, pc, act);
    if act.Tick? {
      TickEvent(sh, pc, act, sh');
    } else {
      match GroupOf(act)
      case LoginGroup => LoginEvent(sh, t, pc, act, sh', pc');
      case LogoutGroup => LogoutEvent(sh, t, pc, act, sh', pc');
      case CommitGroup => CommitEvent(sh, t, pc, act, sh', pc');
      case RestoreGroup => RestoreEvent(sh, t, pc, act, sh', pc');
      case TokenGroup => TokenEvent(sh, t, pc, act, sh', pc');
      case JoinGroup => JoinEvent(sh, t, pc, act, sh', pc');
      case GrantGroup => GrantEvent(sh, t, pc, act, sh', pc');
      case RefusalGroup => RefusalEvent(sh, t, pc, act, sh', pc');
      case CloseGroup => CloseEvent(sh, t, pc, act, sh', pc');
      case LoopGroup => LoopEvent(sh, t, pc, act, sh', pc');
      case PersistGroup => PersistEvent(sh, t, pc, act, sh', pc');
      case InitGroup => InitEvent(sh, t, pc, act, sh', pc');
    }
  }

  lemma TickEvent(sh: Shared, pc: Pc, act: Action, sh': Shared)
    requires act.Tick? && sh' == sh.(clock := sh.clock + act.delay)
    ensures sh'.core == Apply(sh.core, EffectOf(sh, pc, act))
    ensures Untouched(sh, act, sh') && Stays(act)
  {}
}
