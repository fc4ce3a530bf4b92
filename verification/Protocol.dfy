/**
 One Client under concurrent use: a transition system whose steps are the critical
 sections of the source, for any number of threads.

 `stateCommitMu`, `lifecycleMu` and the flow permit are held across several steps,
 so their owners are part of the state. `refreshMu`, `mu`, `eventMu` and `initMu`
 are never held across a blocking operation; a section under them is one step.

 The environment is unconstrained: token endpoint answers, Save and Delete
 outcomes, the moment a context ends, and scheduling are chosen by the action. A
 failed Save or Delete leaves any content in the store.
*/
module Protocol {
  import opened Basics
  import opened ClientCore
  import opened Errors
  import opened Events
  import opened StageTimes
  import opened Tokens

  /** A caller's thread, or the goroutine that runs one refresh attempt. */
  datatype Thread = Caller(n: nat) | Goroutine(attempt: nat)

  // ----- shared state -----------------------------------------------------------

  datatype Kind = Login | Logout

  // lifecycle.go:15-21; `owner` is the thread that runs the operation.
  datatype Operation = Operation(id: nat, kind: Kind, owner: Thread)

  datatype Outcome = Outcome(state: TokenState, failure: Option<Failure>)

  // refresh.go:15-25; `joined` names the callers that `participants` counts.
  datatype RefreshAttempt = RefreshAttempt(
    revision: nat,
    snapshot: TokenState,
    participants: int,
    joined: set<Thread>,
    cancelled: bool,
    launched: bool,
    outcome: Option<Outcome>,
    complete: bool)

  /** An event and, for a token-state event, the revision it reports. */
  datatype LogEntry = LogEntry(event: EventName, reports: Option<nat>)

  /** History that no step of the source reads. */
  datatype Ghosts = Ghosts(
    history: seq<TokenState>,          // the state of every revision so far
    installed: bool,                   // this Client has committed a state
    log: seq<LogEntry>,                // events in enqueue order
    admitted: seq<Operation>,          // operation n is admitted[n - 1]
    commits: seq<Operation>,           // operations in commit order
    tombstone: nat,                    // id of the last committed Logout
    logoutPending: bool,               // the current Logout has not committed yet
    inconclusive: set<nat>,            // revisions an attempt was abandoned for
    integrityFailed: set<nat>,         // revisions that failed an integrity check
    emitted: set<nat>,                 // revisions the supervisor emitted for
    refreshHolder: Option<Thread>,     // who holds the refresh claim
    retryHolder: Option<Thread>,       // who holds the persistence claim
    starts: set<nat>,                  // stages started for this revision
    startCount: nat,                   // background attempts of this revision
    lastCompletion: Option<Time>,      // last stage-consuming completion
    lastSaveFailure: Time,
    saveFailures: nat,                 // consecutive failures of this revision
    initCommits: seq<nat>)

  datatype Shared = Shared(
    core: Core,
    attempts: map<nat, RefreshAttempt>,
    current: Option<nat>,
    nextAttempt: nat,
    store: TokenState,
    commitMu: Option<Thread>,
    lifecycleMu: Option<Thread>,
    lifecycleSeq: nat,
    operation: Option<Operation>,
    flowPermit: Option<Thread>,
    initSeq: nat,
    initOperation: Option<nat>,
    clock: Time,
    ghosts: Ghosts)

  // ----- where a thread is ------------------------------------------------------

  /** Whose freshly installed state is being saved. */
  datatype Committer =
    | ByLogin(op: Operation)
    | ByRefresh(attempt: nat)
    | ByRefusal(attempt: nat)

  datatype Pc =
    | Idle
    // Login
    | LoginFlow(op: Operation)
    | LoginHandler(op: Operation)
    | LoginReady(op: Operation, next: TokenState)
    | LoginLocked(op: Operation, next: TokenState)
    // Logout
    | LogoutLocked(op: Operation)
    | LogoutDeleting(op: Operation, revision: nat)
    | LogoutQueueing(op: Operation, revision: nat)
    | LogoutRemote(op: Operation)
    | LogoutHandler(op: Operation)
    | OpFinishing(op: Operation)
    // every commit that installs tokens
    | Saving(who: Committer, revision: nat)
    | Recording(who: Committer, revision: nat, failed: bool)
    | Queueing(who: Committer, revision: nat)
    // RestoreSession
    | RestoreLoading
    | RestoreInstalling(loaded: TokenState)
    // AccessToken
    | TokenRead(snapshot: TokenState, revision: nat, parked: bool)
    | TokenTrying(snapshot: TokenState, revision: nat)
    | TokenWaiting(attempt: nat, snapshot: TokenState, revision: nat)
    | TokenBlocking(snapshot: TokenState, revision: nat, failure: Failure)
    | TokenDeciding
    | Answered(token: string)
    // runRefreshAttempt
    | Granting(attempt: nat)
    | GrantFailed(attempt: nat, failure: Failure)
    | GrantOk(attempt: nat, next: TokenState)
    | Refusing(attempt: nat)
    | RefusalLoading(attempt: nat)
    | RefusalInstalling(attempt: nat, loadFailed: bool)
    | Finishing(attempt: nat, outcome: Outcome)
    | Completing(attempt: nat)
    // runRefreshLoop
    | LoopTop
    | LoopWaiting(wake: nat, due: Time)
    | LoopTrying(claim: Claim)
    | LoopJoined(claim: Claim, attempt: nat)
    | LoopDone(claim: Claim, result: AttemptResult)
    | LoopEmitting(revision: nat)
    // runPersistenceRetryLoop
    | PersistTop
    | PersistWaiting(wake: nat, due: Time)
    | PersistClaimed(revision: nat, id: nat)
    | PersistSaving(revision: nat, id: nat)
    | PersistUpdating(revision: nat, id: nat, failed: bool)
    // Init
    | Discovering(id: nat)

  datatype Action =
    | Tick(delay: nat)
    // Login: `alive` says that the caller's context has not ended
    | BeginLogin
    | TakePermit(alive: bool)
    | HandlerReturns(alive: bool)
    | LoginTokens(tokens: TokenState)
    | AbandonOperation
    | LockLifecycle(alive: bool)
    | InstallLogin(alive: bool)
    | FinishOperation
    // Logout
    | BeginLogout
    | ClearState
    | DeleteReturns(failed: bool, content: TokenState)
    | QueueLoggedOut
    // committing
    | SaveReturns(failed: bool, content: TokenState)
    | RecordSaveResult(now: Time)
    | QueueCommitEvent
    // RestoreSession
    | BeginRestore
    | LoadReturns(failed: bool)
    | InstallRestored
    // AccessToken
    | BeginToken
    | JudgeToken(now: Time)
    | TryRefresh(ctxDone: bool)
    | CancelWait(ctxDone: bool)
    | ReadOutcome(ctxDone: bool)
    | BlockGeneration(now: Time)
    | DecideToken(now: Time)
    | Retire
    // refresh attempt
    | Launch
    | GrantFails(failure: Failure)
    | GrantSucceeds(response: TokenResponse)
    | FenceFailure
    | CommitRefresh
    | CheckRefusal
    | LoadForRefusal(failed: bool)
    | InstallRefusal
    | FinishAttempt(now: Time)
    | CloseComplete
    // refresh supervisor
    | StartLoop
    | NextLoopAction(now: Time)
    | WakeLoop
    | FinishLoopAttempt(now: Time)
    | EmitIfCurrent
    | StopLoop
    // persistence supervisor
    | StartPersistLoop
    | NextPersistAction(now: Time)
    | LockForRetry(alive: bool)
    | RetrySaveReturns(failed: bool, content: TokenState)
    | FinishRetrySave(now: Time)
    // Init
    | BeginInit
    | CommitInit(snapshot: Discovery, alive: bool)
    | FailInit(alive: bool)
    | FinishInit

  // ----- helpers ----------------------------------------------------------------

  /** A reading of the clock taken at any earlier moment. */
  predicate PastReading(sh: Shared, now: Time) {
    0 < now <= sh.clock
  }

  /** lifecycle.go:89-94 and 77-81. */
  predicate Owned(sh: Shared, op: Operation) {
    sh.operation == Some(op)
  }

  predicate Current(sh: Shared, op: Operation, alive: bool) {
    Owned(sh, op) && alive
  }

  /** advanceStateLocked, with the histories that follow it. */
  function Install(sh: Shared, state: TokenState): Shared {
    sh.(core := Advance(sh.core, state),
        ghosts := sh.ghosts.(history := sh.ghosts.history + [state],
                             installed := true,
                             refreshHolder := None,
                             retryHolder := None,
                             starts := {},
                             startCount := 0,
                             lastCompletion := None,
                             saveFailures := 0))
  }

  function Enqueue(sh: Shared, event: EventName, reports: Option<nat>): Shared {
    sh.(ghosts := sh.ghosts.(log := sh.ghosts.log + [LogEntry(event, reports)]))
  }

  function SavedContent(failed: bool, content: TokenState, written: TokenState): TokenState {
    if failed then content else written
  }

  /** releaseRefreshParticipant (refresh.go:314-321). */
  function Leave(sh: Shared, t: Thread, a: nat): Shared
    requires a in sh.attempts
  {
    var at := sh.attempts[a];
    var left := at.participants - 1;
    sh.(attempts := sh.attempts[a := at.(
          participants := left,
          joined := at.joined - {t},
          cancelled := at.cancelled || (left == 0 && sh.current == Some(a)))])
  }

  /** The caller starts a new attempt (refresh.go:262-275). */
  function Lead(sh: Shared, t: Thread, snapshot: TokenState): Shared {
    var a := sh.nextAttempt;
    sh.(attempts := sh.attempts[a := RefreshAttempt(sh.core.revision, snapshot, 1, {t},
                                                     false, false, None, false)],
        current := Some(a),
        nextAttempt := a + 1)
  }

  /** The caller joins the running attempt (refresh.go:280-284). */
  function Follow(sh: Shared, t: Thread, a: nat): Shared
    requires a in sh.attempts
  {
    var at := sh.attempts[a];
    sh.(attempts := sh.attempts[a := at.(participants := at.participants + 1,
                                         joined := at.joined + {t})])
  }

  /** What a caller of beginRefreshAttempt gets from one pass. */
  datatype Entry = Left(failure: Option<Failure>) | Joined(attempt: nat) | Again

  /** One pass of the loop in beginRefreshAttempt (refresh.go:206-285): `Again`
      means waiting for the abandoned or older attempt to finish. */
  function TryBegin(sh: Shared, t: Thread, snapshot: TokenState, revision: nat, claimID: nat)
    : (Shared, Entry)
  {
    match Admit(sh.core, snapshot, revision, claimID, sh.clock)
    case Stale => (sh, Left(None))
    case Rejected(f) => (sh, Left(Some(f)))
    case Admitted =>
      match sh.current
      case None => (Lead(sh, t, snapshot), Joined(sh.nextAttempt))
      case Some(a) =>
        if a in sh.attempts && sh.attempts[a].revision == sh.core.revision
           && sh.attempts[a].participants > 0 then
          (Follow(sh, t, a), Joined(a))
        else (sh, Again)
  }

  /** finishRefreshAttempt (refresh.go:323-360). */
  function CloseAttempt(sh: Shared, a: nat, outcome: Outcome, now: Time): Shared
    requires a in sh.attempts
  {
    var at := sh.attempts[a];
    var f := outcome.failure;
    var core :=
      if f.None? then sh.core
      else RecordFailure(sh.core, at.revision, at.snapshot, f.value, at.cancelled, now);
    var abandoned := f.Some? && !Permanent(f.value) && at.cancelled && !ProviderAnswered(f.value)
                     && sh.core.revision == at.revision;
    var failedCheck := f == Some(IntegrityFailure) && sh.core.revision == at.revision;
    sh.(core := core,
        attempts := sh.attempts[a := at.(outcome := Some(outcome), cancelled := true)],
        current := if sh.current == Some(a) then None else sh.current,
        ghosts := sh.ghosts.(
          inconclusive := sh.ghosts.inconclusive + (if abandoned then {at.revision} else {}),
          integrityFailed := sh.ghosts.integrityFailed + (if failedCheck then {at.revision} else {})))
  }

  function Started(sh: Shared, claim: Claim): Shared {
    sh.(ghosts := sh.ghosts.(starts := sh.ghosts.starts + {claim.stage},
                             startCount := sh.ghosts.startCount + 1))
  }

  /** finishRefreshLoopAttempt, with the claim's bookkeeping. */
  function ReleaseClaim(sh: Shared, claim: Claim, result: AttemptResult, now: Time): Shared {
    if !HoldsRefreshClaim(sh.core, claim) then sh
    else
      var consumed := result.Temporary? || result.CanceledAfterStart? || result.Succeeded?;
      sh.(core := FinishClaim(sh.core, claim, result, now),
          ghosts := sh.ghosts.(refreshHolder := None,
                               lastCompletion := if consumed then Some(now)
                                                 else sh.ghosts.lastCompletion))
  }

  function AfterRelease(who: Committer, state: TokenState): Pc {
    match who
    case ByLogin(op) => OpFinishing(op)
    case ByRefresh(a) => Finishing(a, Outcome(state, None))
    case ByRefusal(a) => Finishing(a, Outcome(ZERO, Some(InvalidGrant)))
  }

  function EventOf(who: Committer): EventName {
    match who
    case ByLogin(_) => LoggedIn
    case ByRefresh(_) => TokenRefreshed
    case ByRefusal(_) => SessionExpired
  }

  // ----- the steps --------------------------------------------------------------

  /** The effect of `act` by thread `t` at `pc`; None when the action is not
      available there, which includes waiting for a lock. */
  function Do(sh: Shared, t: Thread, pc: Pc, act: Action): Option<(Shared, Pc)> {
    match GroupOf(act)
    case TimeGroup => Some((sh.(clock := sh.clock + act.delay), pc))
    case LoginGroup => DoLogin(sh, t, pc, act)
    case LogoutGroup => DoLogout(sh, t, pc, act)
    case CommitGroup => DoCommit(sh, t, pc, act)
    case RestoreGroup => DoRestore(sh, t, pc, act)
    case TokenGroup => DoToken(sh, t, pc, act)
    case JoinGroup => DoJoin(sh, t, pc, act)
    case GrantGroup => DoGrant(sh, t, pc, act)
    case RefusalGroup => DoRefusal(sh, t, pc, act)
    case CloseGroup => DoClose(sh, t, pc, act)
    case LoopGroup => DoLoop(sh, t, pc, act)
    case PersistGroup => DoPersist(sh, t, pc, act)
    case InitGroup => DoInit(sh, t, pc, act)
  }

  /** The part of the client that an action belongs to. */
  datatype Group =
    | TimeGroup | LoginGroup | LogoutGroup | CommitGroup | RestoreGroup | TokenGroup | JoinGroup
    | GrantGroup | RefusalGroup | CloseGroup | LoopGroup | PersistGroup | InitGroup

  function GroupOf(act: Action): Group {
    if act.Tick? then TimeGroup
    else if || act.BeginLogin? || act.TakePermit? || act.HandlerReturns? || act.LoginTokens?
            || act.AbandonOperation? || act.LockLifecycle? || act.InstallLogin?
            || act.FinishOperation?
    then LoginGroup
    else if || act.BeginLogout? || act.ClearState? || act.DeleteReturns? || act.QueueLoggedOut?
    then LogoutGroup
    else if act.SaveReturns? || act.RecordSaveResult? || act.QueueCommitEvent? then CommitGroup
    else if act.BeginRestore? || act.LoadReturns? || act.InstallRestored? then RestoreGroup
    else if || act.BeginToken? || act.JudgeToken? || act.BlockGeneration? || act.DecideToken?
            || act.Retire?
    then TokenGroup
    else if act.TryRefresh? || act.CancelWait? || act.ReadOutcome? then JoinGroup
    else if || act.Launch? || act.GrantFails? || act.GrantSucceeds? || act.FenceFailure?
            || act.CommitRefresh?
    then GrantGroup
    else if act.CheckRefusal? || act.LoadForRefusal? || act.InstallRefusal? then RefusalGroup
    else if act.FinishAttempt? || act.CloseComplete? then CloseGroup
    else if || act.StartLoop? || act.NextLoopAction? || act.WakeLoop? || act.FinishLoopAttempt?
            || act.EmitIfCurrent? || act.StopLoop?
    then LoopGroup
    else if || act.StartPersistLoop? || act.NextPersistAction? || act.LockForRetry?
            || act.RetrySaveReturns? || act.FinishRetrySave?
    then PersistGroup
    else InitGroup
  }

  // What the grouping says of each action, for proofs that keep GroupOf hidden.

  predicate SessionGrouped(act: Action, g: Group) {
    && (act.Tick? <==> g.TimeGroup?)
    && ((|| act.BeginLogin? || act.TakePermit? || act.HandlerReturns? || act.LoginTokens?
         || act.AbandonOperation? || act.LockLifecycle? || act.InstallLogin?
         || act.FinishOperation?)
        ==> g.LoginGroup?)
    && ((|| act.BeginLogout? || act.ClearState? || act.DeleteReturns? || act.QueueLoggedOut?)
        ==> g.LogoutGroup?)
    && (act.SaveReturns? || act.RecordSaveResult? || act.QueueCommitEvent? ==> g.CommitGroup?)
    && (act.BeginRestore? || act.LoadReturns? || act.InstallRestored? ==> g.RestoreGroup?)
  }

  predicate RefreshGrouped(act: Action, g: Group) {
    && ((|| act.BeginToken? || act.JudgeToken? || act.BlockGeneration? || act.DecideToken?
         || act.Retire?)
        ==> g.TokenGroup?)
    && (act.TryRefresh? || act.CancelWait? || act.ReadOutcome? ==> g.JoinGroup?)
    && ((|| act.Launch? || act.GrantFails? || act.GrantSucceeds? || act.FenceFailure?
         || act.CommitRefresh?)
        ==> g.GrantGroup?)
    && (act.CheckRefusal? || act.LoadForRefusal? || act.InstallRefusal? ==> g.RefusalGroup?)
    && (act.FinishAttempt? || act.CloseComplete? ==> g.CloseGroup?)
  }

  predicate SupervisionGrouped(act: Action, g: Group) {
    && ((|| act.StartLoop? || act.NextLoopAction? || act.WakeLoop? || act.FinishLoopAttempt?
         || act.EmitIfCurrent? || act.StopLoop?)
        ==> g.LoopGroup?)
    && ((|| act.StartPersistLoop? || act.NextPersistAction? || act.LockForRetry?
         || act.RetrySaveReturns? || act.FinishRetrySave?)
        ==> g.PersistGroup?)
    && (act.BeginInit? || act.CommitInit? || act.FailInit? || act.FinishInit? ==> g.InitGroup?)
  }

  lemma EveryActionIsGrouped(act: Action)
    ensures SessionGrouped(act, GroupOf(act))
    ensures RefreshGrouped(act, GroupOf(act))
    ensures SupervisionGrouped(act, GroupOf(act))
  {
    SessionIsGrouped(act);
    RefreshIsGrouped(act);
    SupervisionIsGrouped(act);
  }

  lemma SessionIsGrouped(act: Action)
    ensures SessionGrouped(act, GroupOf(act))
  {}

  lemma RefreshIsGrouped(act: Action)
    ensures RefreshGrouped(act, GroupOf(act))
  {}

  lemma SupervisionIsGrouped(act: Action)
    ensures SupervisionGrouped(act, GroupOf(act))
  {}

  /** For proofs that look at one group only. */
  lemma Dispatch(sh: Shared, t: Thread, pc: Pc, act: Action)
    ensures
      Do(sh, t, pc, act) ==
      match GroupOf(act)
      case TimeGroup => Some((sh.(clock := sh.clock + act.delay), pc))
      case LoginGroup => DoLogin(sh, t, pc, act)
      case LogoutGroup => DoLogout(sh, t, pc, act)
      case CommitGroup => DoCommit(sh, t, pc, act)
      case RestoreGroup => DoRestore(sh, t, pc, act)
      case TokenGroup => DoToken(sh, t, pc, act)
      case JoinGroup => DoJoin(sh, t, pc, act)
      case GrantGroup => DoGrant(sh, t, pc, act)
      case RefusalGroup => DoRefusal(sh, t, pc, act)
      case CloseGroup => DoClose(sh, t, pc, act)
      case LoopGroup => DoLoop(sh, t, pc, act)
      case PersistGroup => DoPersist(sh, t, pc, act)
      case InitGroup => DoInit(sh, t, pc, act)
  {
    hide GroupOf;
  }

  function NewestOperation(sh: Shared, t: Thread, kind: Kind): Operation {
    Operation(sh.lifecycleSeq + 1, kind, t)
  }

  /** beginLifecycleOperationLocked (lifecycle.go:39-58). */
  function AdmitOperation(sh: Shared, t: Thread, kind: Kind): Shared {
    var op := NewestOperation(sh, t, kind);
    sh.(lifecycleSeq := op.id,
        operation := Some(op),
        ghosts := sh.ghosts.(admitted := sh.ghosts.admitted + [op]))
  }

  function DoLogin(sh: Shared, t: Thread, pc: Pc, act: Action): Option<(Shared, Pc)> {
    match act
    case BeginLogin =>
      if pc.Idle? && t.Caller? && sh.lifecycleMu.None? then
        Some((AdmitOperation(sh, t, Login), LoginFlow(NewestOperation(sh, t, Login))))
      else None
    case TakePermit(alive) =>
      // lifecycle.go:151-165: losing the operation while waiting gives the permit back.
      if (pc.LoginFlow? || pc.LogoutRemote?) && sh.flowPermit.None? then
        if !Current(sh, pc.op, alive) then Some((sh, OpFinishing(pc.op)))
        else Some((sh.(flowPermit := Some(t)),
                   if pc.LoginFlow? then LoginHandler(pc.op) else LogoutHandler(pc.op)))
      else None
    case HandlerReturns(alive) =>
      if pc.LoginHandler? then
        Some((sh.(flowPermit := None),
              if Current(sh, pc.op, alive) then LoginFlow(pc.op) else OpFinishing(pc.op)))
      else if pc.LogoutHandler? then
        Some((sh.(flowPermit := None), OpFinishing(pc.op)))
      else None
    case LoginTokens(tokens) =>
      // login.go:141-207: the exchange succeeded and the ID token verified.
      if pc.LoginFlow? && PastReading(sh, tokens.lastAuthAt) then
        Some((sh, LoginReady(pc.op, tokens)))
      else None
    case AbandonOperation =>
      if pc.LoginFlow? || pc.LogoutRemote? then Some((sh, OpFinishing(pc.op))) else None
    case LockLifecycle(alive) =>
      if pc.LoginReady? && sh.lifecycleMu.None? then
        if !Current(sh, pc.op, alive) then Some((sh, OpFinishing(pc.op)))
        else Some((sh.(lifecycleMu := Some(t)), LoginLocked(pc.op, pc.next)))
      else None
    case InstallLogin(alive) =>
      if pc.LoginLocked? && sh.commitMu.None? then
        if !Current(sh, pc.op, alive) then
          Some((sh.(lifecycleMu := None), OpFinishing(pc.op)))
        else
          var sh' := Install(sh, pc.next);
          Some((sh'.(commitMu := Some(t),
                     ghosts := sh'.ghosts.(commits := sh'.ghosts.commits + [pc.op])),
                Saving(ByLogin(pc.op), sh'.core.revision)))
      else None
    case FinishOperation =>
      if pc.OpFinishing? && sh.lifecycleMu.None? then
        Some((if Owned(sh, pc.op) then sh.(operation := None) else sh, Idle))
      else None
    case _ => None
  }

  function DoLogout(sh: Shared, t: Thread, pc: Pc, act: Action): Option<(Shared, Pc)> {
    match act
    case BeginLogout =>
      if pc.Idle? && t.Caller? && sh.lifecycleMu.None? then
        if sh.operation.Some? && sh.operation.value.kind.Logout? then
          Some((sh, Idle))    // coalesced: returns at once
        else
          var sh' := AdmitOperation(sh, t, Logout);
          Some((sh'.(lifecycleMu := Some(t), ghosts := sh'.ghosts.(logoutPending := true)),
                LogoutLocked(NewestOperation(sh, t, Logout))))
      else None
    case ClearState =>
      if pc.LogoutLocked? && sh.commitMu.None? then
        var advanced := if sh.core.state == ZERO then sh else Install(sh, ZERO);
        Some((advanced.(core := ClearForLogout(sh.core),
                        commitMu := Some(t),
                        ghosts := advanced.ghosts.(
                          installed := true,
                          retryHolder := None,
                          saveFailures := 0,
                          commits := advanced.ghosts.commits + [pc.op],
                          tombstone := pc.op.id,
                          logoutPending := false)),
              LogoutDeleting(pc.op, advanced.core.revision)))
      else None
    case DeleteReturns(failed, content) =>
      if pc.LogoutDeleting? then
        Some((sh.(store := SavedContent(failed, content, ZERO)),
              LogoutQueueing(pc.op, pc.revision)))
      else None
    case QueueLoggedOut =>
      if pc.LogoutQueueing? then
        Some((Enqueue(sh, LoggedOut, Some(pc.revision)).(commitMu := None, lifecycleMu := None),
              LogoutRemote(pc.op)))
      else None
    case _ => None
  }

  function DoCommit(sh: Shared, t: Thread, pc: Pc, act: Action): Option<(Shared, Pc)> {
    match act
    case SaveReturns(failed, content) =>
      if pc.Saving? then
        Some((sh.(store := SavedContent(failed, content, sh.core.state)),
              Recording(pc.who, pc.revision, failed)))
      else None
    case RecordSaveResult(now) =>
      if pc.Recording? && PastReading(sh, now) then
        Some((sh.(core := RecordSave(sh.core, pc.revision, pc.failed, now),
                  ghosts := if pc.failed && sh.core.revision == pc.revision
                            then sh.ghosts.(saveFailures := 1, lastSaveFailure := now)
                            else sh.ghosts),
              Queueing(pc.who, pc.revision)))
      else None
    case QueueCommitEvent =>
      if pc.Queueing? then
        Some((Enqueue(sh, EventOf(pc.who), Some(pc.revision)).(
                commitMu := None,
                lifecycleMu := if pc.who.ByLogin? then None else sh.lifecycleMu),
              AfterRelease(pc.who, sh.core.state)))
      else None
    case _ => None
  }

  function DoRestore(sh: Shared, t: Thread, pc: Pc, act: Action): Option<(Shared, Pc)> {
    match act
    case BeginRestore =>
      if pc.Idle? && t.Caller? && sh.commitMu.None? then
        if sh.core.restoreBlocked || RetryPending(sh.core) then Some((sh, Idle))
        else Some((sh.(commitMu := Some(t)), RestoreLoading))
      else None
    case LoadReturns(failed) =>
      if pc.RestoreLoading? then
        if failed || sh.store.IsZero() then Some((sh.(commitMu := None), Idle))
        else Some((sh, RestoreInstalling(sh.store)))
      else None
    case InstallRestored =>
      if pc.RestoreInstalling? then
        var sh' := if sh.core.state == pc.loaded
                   then sh.(ghosts := sh.ghosts.(installed := true))
                   else Install(sh, pc.loaded);
        Some((sh'.(commitMu := None), Idle))
      else None
    case _ => None
  }

  function DoToken(sh: Shared, t: Thread, pc: Pc, act: Action): Option<(Shared, Pc)> {
    match act
    case BeginToken =>
      // accesstoken.go:33-42
      if pc.Idle? && t.Caller? then
        var c := sh.core;
        if c.state.IsZero() || BlockedAs(c, BlockedIntegrity) then Some((sh, Answered("")))
        else Some((sh, TokenRead(c.state, c.revision, BlockedAs(c, BlockedPermanent))))
      else None
    case JudgeToken(now) =>
      // accesstoken.go:44-58
      if pc.TokenRead? && PastReading(sh, now) then
        if Fresh(pc.snapshot, now) then Some((sh, Answered(pc.snapshot.accessToken)))
        else if pc.snapshot.refreshToken != "" && !pc.parked && sh.core.discovery.Some? then
          Some((sh, TokenTrying(pc.snapshot, pc.revision)))
        else Some((sh, TokenDeciding))
      else None
    case BlockGeneration(now) =>
      // accesstoken.go:62-72.
      if pc.TokenBlocking? && PastReading(sh, now) then
        if pc.failure.IntegrityFailure? then
          Some((sh.(core := BlockIntegrity(sh.core, pc.revision, now)), Answered("")))
        else if Permanent(pc.failure) then
          Some((sh.(core := BlockPermanent(sh.core, pc.revision, pc.snapshot, now)), TokenDeciding))
        else Some((sh, TokenDeciding))
      else None
    case DecideToken(now) =>
      if pc.TokenDeciding? && PastReading(sh, now) then
        Some((sh, Answered(UsableToken(sh.core, now))))
      else None
    case Retire => if pc.Answered? then Some((sh, Idle)) else None
    case _ => None
  }

  /** The callers' side of a shared attempt. */
  function DoJoin(sh: Shared, t: Thread, pc: Pc, act: Action): Option<(Shared, Pc)> {
    match act
    case TryRefresh(ctxDone) =>
      if pc.TokenTrying? then
        var (sh', entry) := TryBegin(sh, t, pc.snapshot, pc.revision, 0);
        match entry
        case Left(None) => Some((sh', Answered(sh.core.state.accessToken)))
        case Left(Some(f)) => Some((sh', TokenBlocking(pc.snapshot, pc.revision, f)))
        case Joined(a) => Some((sh', TokenWaiting(a, pc.snapshot, pc.revision)))
        case Again => Some((sh', pc))
      else if pc.LoopTrying? then
        var (sh', entry) := TryBegin(sh, t, pc.claim.state, pc.claim.revision, pc.claim.id);
        match entry
        case Left(f) => Some((sh', LoopDone(pc.claim, ReadResult(f, false, ctxDone))))
        case Joined(a) => Some((Started(sh', pc.claim), LoopJoined(pc.claim, a)))
        case Again => Some((sh', pc))
      else None
    case CancelWait(_) =>
      // The caller's context ends before or while it waits.
      (match pc
      case TokenTrying(_, _) => Some((sh, TokenDeciding))
      case TokenWaiting(a, _, _) =>
        if a in sh.attempts then Some((Leave(sh, t, a), TokenDeciding)) else None
      case LoopTrying(claim) =>
        Some((sh, LoopDone(claim, ReadResult(Some(Cancelled), false, true))))
      case LoopJoined(claim, a) =>
        if a in sh.attempts then
          Some((Leave(sh, t, a), LoopDone(claim, ReadResult(Some(Cancelled), true, true))))
        else None
      case _ => None)
    case ReadOutcome(ctxDone) =>
      // refresh.go:298-307: the attempt is complete; leave it and read its error.
      (match pc
      case TokenWaiting(a, snapshot, revision) =>
        if a in sh.attempts && sh.attempts[a].complete && sh.attempts[a].outcome.Some? then
          Some((Leave(sh, t, a),
                match sh.attempts[a].outcome.value.failure
                case Some(f) => TokenBlocking(snapshot, revision, f)
                case None => Answered(sh.core.state.accessToken)))
        else None
      case LoopJoined(claim, a) =>
        if a in sh.attempts && sh.attempts[a].complete && sh.attempts[a].outcome.Some? then
          Some((Leave(sh, t, a),
                LoopDone(claim, ReadResult(sh.attempts[a].outcome.value.failure, true, ctxDone))))
        else None
      case _ => None)
    case _ => None
  }

  /** performRefresh (refresh.go:362-496). */
  function DoGrant(sh: Shared, t: Thread, pc: Pc, act: Action): Option<(Shared, Pc)> {
    match act
    case Launch =>
      if pc.Idle? && t.Goroutine? && t.attempt in sh.attempts
         && !sh.attempts[t.attempt].launched then
        Some((sh.(attempts := sh.attempts[t.attempt := sh.attempts[t.attempt].(launched := true)]),
              Granting(t.attempt)))
      else None
    case GrantFails(f) =>
      if pc.Granting? && !f.ExpiredBeforeStart? && !f.BlockedPermanently? then
        Some((sh, GrantFailed(pc.attempt, f)))
      else None
    case GrantSucceeds(response) =>
      if pc.Granting? && pc.attempt in sh.attempts && sh.clock > 0 then
        match RefreshedState(sh.core.subjectOf, sh.attempts[pc.attempt].snapshot, response, sh.clock)
        case Some(next) => Some((sh, GrantOk(pc.attempt, next)))
        case None => Some((sh, GrantFailed(pc.attempt, IntegrityFailure)))
      else None
    case FenceFailure =>
      // refreshFailure (refresh.go:489-496), then the refusal test at refresh.go:113.
      if pc.GrantFailed? && pc.attempt in sh.attempts then
        if sh.core.revision != sh.attempts[pc.attempt].revision then
          Some((sh, Finishing(pc.attempt, Outcome(sh.core.state, None))))
        else if pc.failure.InvalidGrant? then Some((sh, Refusing(pc.attempt)))
        else Some((sh, Finishing(pc.attempt, Outcome(ZERO, Some(pc.failure)))))
      else None
    case CommitRefresh =>
      if pc.GrantOk? && pc.attempt in sh.attempts && sh.commitMu.None? then
        if sh.core.revision != sh.attempts[pc.attempt].revision then
          Some((sh, Finishing(pc.attempt, Outcome(sh.core.state, None))))
        else
          var sh' := Install(sh, pc.next);
          Some((sh'.(commitMu := Some(t)), Saving(ByRefresh(pc.attempt), sh'.core.revision)))
      else None
    case _ => None
  }

  /** commitCredentialRefusal (refresh.go:109-181). */
  function DoRefusal(sh: Shared, t: Thread, pc: Pc, act: Action): Option<(Shared, Pc)> {
    match act
    case CheckRefusal =>
      if pc.Refusing? && pc.attempt in sh.attempts && sh.commitMu.None? then
        var r := sh.attempts[pc.attempt].revision;
        if sh.core.revision != r || MarkedInconclusive(sh.core, r) then
          Some((sh, Finishing(pc.attempt, Outcome(ZERO, Some(InvalidGrant)))))
        else Some((sh.(commitMu := Some(t)), RefusalLoading(pc.attempt)))
      else None
    case LoadForRefusal(failed) =>
      if pc.RefusalLoading? && pc.attempt in sh.attempts then
        if !failed && Superseded(sh.store, sh.attempts[pc.attempt].snapshot) then
          Some((sh.(commitMu := None), Finishing(pc.attempt, Outcome(ZERO, Some(InvalidGrant)))))
        else Some((sh, RefusalInstalling(pc.attempt, failed)))
      else None
    case InstallRefusal =>
      if pc.RefusalInstalling? && pc.attempt in sh.attempts then
        var at := sh.attempts[pc.attempt];
        if sh.core.revision != at.revision then
          Some((sh.(commitMu := None), Finishing(pc.attempt, Outcome(ZERO, Some(InvalidGrant)))))
        else
          var sh' := Install(sh, RefusedState(at.snapshot));
          Some((sh', Saving(ByRefusal(pc.attempt), sh'.core.revision)))
      else None
    case _ => None
  }

  function DoClose(sh: Shared, t: Thread, pc: Pc, act: Action): Option<(Shared, Pc)> {
    match act
    case FinishAttempt(now) =>
      if pc.Finishing? && pc.attempt in sh.attempts && PastReading(sh, now) then
        Some((CloseAttempt(sh, pc.attempt, pc.outcome, now), Completing(pc.attempt)))
      else None
    case CloseComplete =>
      if pc.Completing? && pc.attempt in sh.attempts then
        Some((sh.(attempts := sh.attempts[pc.attempt := sh.attempts[pc.attempt].(complete := true)]),
              Idle))
      else None
    case _ => None
  }

  function DoLoop(sh: Shared, t: Thread, pc: Pc, act: Action): Option<(Shared, Pc)> {
    match act
    case StartLoop => if pc.Idle? && t.Caller? then Some((sh, LoopTop)) else None
    case NextLoopAction(now) =>
      if pc.LoopTop? && PastReading(sh, now) then
        var (core, next) := NextRefresh(sh.core, now);
        var sh' := sh.(core := core);
        match next
        case WaitFor(due, wake) => Some((sh', LoopWaiting(wake, due)))
        case Attempt(claim) =>
          Some((sh'.(ghosts := sh.ghosts.(refreshHolder := Some(t))), LoopTrying(claim)))
        case EmitExpired(r) =>
          Some((sh'.(ghosts := sh.ghosts.(emitted := sh.ghosts.emitted + {r})), LoopEmitting(r)))
      else None
    case WakeLoop =>
      // A waiter leaves its wait when its channel is closed or its timer fires.
      if pc.LoopWaiting? && (pc.wake < sh.core.wake || 0 < pc.due <= sh.clock) then
        Some((sh, LoopTop))
      else if pc.PersistWaiting? && (pc.wake < sh.core.wake || 0 < pc.due <= sh.clock) then
        Some((sh, PersistTop))
      else None
    case FinishLoopAttempt(now) =>
      if pc.LoopDone? && PastReading(sh, now) then
        Some((ReleaseClaim(sh, pc.claim, pc.result, now), LoopTop))
      else None
    case EmitIfCurrent =>
      if pc.LoopEmitting? && sh.commitMu.None? then
        Some((if sh.core.revision == pc.revision
              then Enqueue(sh, SessionExpired, Some(pc.revision)) else sh, LoopTop))
      else None
    case StopLoop =>
      if pc.LoopTop? || pc.LoopWaiting? || pc.PersistTop? || pc.PersistWaiting? then
        Some((sh, Idle))
      else None
    case _ => None
  }

  function DoPersist(sh: Shared, t: Thread, pc: Pc, act: Action): Option<(Shared, Pc)> {
    match act
    case StartPersistLoop => if pc.Idle? && t.Caller? then Some((sh, PersistTop)) else None
    case NextPersistAction(now) =>
      if pc.PersistTop? && PastReading(sh, now) then
        var (core, next) := NextPersistence(sh.core, now);
        var sh' := sh.(core := core);
        match next
        case PersistWait(due, wake) => Some((sh', PersistWaiting(wake, due)))
        case PersistClaim(r, id) =>
          Some((sh'.(ghosts := sh.ghosts.(retryHolder := Some(t))), PersistClaimed(r, id)))
      else None
    case LockForRetry(alive) =>
      if pc.PersistClaimed? && sh.commitMu.None? then
        if !HoldsRetryClaim(sh.core, pc.revision, pc.id) then Some((sh, PersistTop))
        else if !alive then
          Some((sh.(core := AbandonRetry(sh.core),
                    ghosts := sh.ghosts.(retryHolder := None)),
                PersistTop))
        else Some((sh.(commitMu := Some(t)), PersistSaving(pc.revision, pc.id)))
      else None
    case RetrySaveReturns(failed, content) =>
      if pc.PersistSaving? then
        Some((sh.(store := SavedContent(failed, content, sh.core.state)),
              PersistUpdating(pc.revision, pc.id, failed)))
      else None
    case FinishRetrySave(now) =>
      if pc.PersistUpdating? && PastReading(sh, now) then
        var holds := HoldsRetryClaim(sh.core, pc.revision, pc.id);
        Some((sh.(core := FinishRetry(sh.core, pc.revision, pc.id, pc.failed, now),
                  commitMu := None,
                  ghosts := if !holds then sh.ghosts
                            else if pc.failed then
                              sh.ghosts.(retryHolder := None,
                                         saveFailures := sh.ghosts.saveFailures + 1,
                                         lastSaveFailure := now)
                            else sh.ghosts.(retryHolder := None, saveFailures := 0)),
              PersistTop))
      else None
    case _ => None
  }

  function DoInit(sh: Shared, t: Thread, pc: Pc, act: Action): Option<(Shared, Pc)> {
    match act
    case BeginInit =>
      if pc.Idle? && t.Caller? then
        Some((sh.(initSeq := sh.initSeq + 1, initOperation := Some(sh.initSeq + 1)),
              Discovering(sh.initSeq + 1)))
      else None
    case CommitInit(snapshot, alive) =>
      if pc.Discovering? && sh.initOperation == Some(pc.id) && alive then
        // The deferred finishInitOperation runs right after; it only clears a
        // current operation of the same id, so the two are one step.
        Some((sh.(core := CommitDiscovery(sh.core, snapshot),
                  initOperation := None,
                  ghosts := sh.ghosts.(initCommits := sh.ghosts.initCommits + [pc.id])),
              Idle))
      else None
    case FailInit(alive) =>
      if pc.Discovering? && sh.initOperation == Some(pc.id) && alive then
        Some((Enqueue(sh, InitFailed, None).(initOperation := None), Idle))
      else None
    case FinishInit =>
      // Superseded or cancelled: nothing is applied.
      if pc.Discovering? then
        Some((if sh.initOperation == Some(pc.id) then sh.(initOperation := None) else sh, Idle))
      else None
    case _ => None
  }

  // ----- systems and runs -------------------------------------------------------

  datatype System = System(shared: Shared, threads: map<Thread, Pc>)

  function PcOf(s: System, t: Thread): Pc {
    if t in s.threads then s.threads[t] else Idle
  }

  function StepTo(s: System, t: Thread, act: Action): Option<System> {
    match Do(s.shared, t, PcOf(s, t), act)
    case None => None
    case Some((sh, pc)) => Some(System(sh, s.threads[t := pc]))
  }

  /** A new Client over a store with any content. */
  function NewSystem(grace: nat, subjectOf: Decoder, store: TokenState, clock: Time): System {
    System(
      Shared(NewCore(grace, subjectOf), map[], None, 0, store, None, None, 0, None, None, 0, None, clock,
             Ghosts([ZERO], false, [], [], [], 0, false, {}, {}, {}, None, None, {}, 0, None, 0, 0, [])),
      map[])
  }

  ghost predicate Initial(s: System) {
    exists grace, subjectOf, store, clock | clock > 0 ::
      s == NewSystem(grace, subjectOf, store, clock)
  }

  datatype Label = Label(thread: Thread, action: Action)

  /** states[i] --labels[i]--> states[i + 1]. */
  datatype Run = Run(states: seq<System>, labels: seq<Label>)

  ghost predicate IsRun(r: Run) {
    && |r.states| == |r.labels| + 1
    && Initial(r.states[0])
    && forall i :: 0 <= i < |r.labels| ==> IsStep(r, i)
  }

  ghost predicate IsStep(r: Run, i: nat)
    requires |r.states| == |r.labels| + 1 && i < |r.labels|
  {
    StepTo(r.states[i], r.labels[i].thread, r.labels[i].action) == Some(r.states[i + 1])
  }
}
