/**
 What the commit lock protects: durability of the installed generation, the Logout
 tombstone, the order of lifecycle commits and the order of events.
*/
module Commits {
  import opened Base
  import opened Basics
  import opened ClientCore
  import opened Errors
  import Attempts
  import CoreEvents
  import Events
  import opened Locks
  import opened Places
  import opened Protocol
  import opened Tokens
  import G = Generations

  /** The store agrees with memory, or the Client knows that it may not and will
      write again, or memory is a logged-out session that never reads it back. */
  ghost predicate Durable(sh: Shared) {
    || sh.store == sh.core.state
    || RetryPending(sh.core)
    || sh.core.restoreBlocked
  }

  ghost predicate DurableIfInstalled(sh: Shared) {
    sh.ghosts.installed ==> Durable(sh)
  }

  /** What a committed Logout leaves behind until a newer Login commits. */
  ghost predicate Tombstone(sh: Shared) {
    sh.core.restoreBlocked ==>
      && sh.core.state == ZERO
      && !sh.core.retry.valid
      && 0 < sh.ghosts.tombstone <= sh.lifecycleSeq
      && (sh.operation.Some? && sh.operation.value.kind.Login? ==>
            sh.ghosts.tombstone < sh.operation.value.id)
  }

  ghost predicate LogoutStands(sh: Shared) {
    && (sh.ghosts.logoutPending ==> sh.lifecycleMu.Some?)
    && (sh.operation.Some? && sh.operation.value.kind.Logout? && !sh.ghosts.logoutPending ==>
          sh.core.restoreBlocked && sh.ghosts.tombstone == sh.operation.value.id)
  }

  /** The current operation is the newest one admitted. */
  ghost predicate Admissions(sh: Shared) {
    && |sh.ghosts.admitted| == sh.lifecycleSeq
    && (sh.operation.Some? ==>
          && sh.operation.value.id == sh.lifecycleSeq
          && IsAdmitted(sh, sh.operation.value))
  }

  ghost predicate IsAdmitted(sh: Shared, op: Operation) {
    1 <= op.id <= |sh.ghosts.admitted| && sh.ghosts.admitted[op.id - 1] == op
  }

  ghost predicate CommitOrder(sh: Shared) {
    && (forall op :: op in sh.ghosts.commits ==> IsAdmitted(sh, op))
    && (forall i, j :: 0 <= i < j < |sh.ghosts.commits| ==>
          sh.ghosts.commits[i].id < sh.ghosts.commits[j].id)
  }

  /** Token-state events are logged in the order of the generations they report. */
  ghost predicate EventOrder(sh: Shared) {
    && (forall e :: e in sh.ghosts.log && e.reports.Some? ==> e.reports.value <= sh.core.revision)
    && (forall i, j :: 0 <= i < j < |sh.ghosts.log|
                       && sh.ghosts.log[i].reports.Some? && sh.ghosts.log[j].reports.Some? ==>
          sh.ghosts.log[i].reports.value <= sh.ghosts.log[j].reports.value)
  }

  ghost predicate CommitInv(sh: Shared) {
    && (sh.commitMu.None? ==> DurableIfInstalled(sh))
    && Tombstone(sh)
    && LogoutStands(sh)
    && Admissions(sh)
    && CommitOrder(sh)
    && EventOrder(sh)
  }

  // ----- one thread -------------------------------------------------------------

  function OpOf(pc: Pc): Option<Operation> {
    match pc
    case LoginFlow(op) => Some(op)
    case LoginHandler(op) => Some(op)
    case LoginReady(op, _) => Some(op)
    case LoginLocked(op, _) => Some(op)
    case LogoutLocked(op) => Some(op)
    case LogoutDeleting(op, _) => Some(op)
    case LogoutQueueing(op, _) => Some(op)
    case LogoutRemote(op) => Some(op)
    case LogoutHandler(op) => Some(op)
    case OpFinishing(op) => Some(op)
    case Saving(ByLogin(op), _) => Some(op)
    case Recording(ByLogin(op), _, _) => Some(op)
    case Queueing(ByLogin(op), _) => Some(op)
    case _ => None
  }

  predicate NotCommitted(pc: Pc) {
    pc.LoginFlow? || pc.LoginHandler? || pc.LoginReady? || pc.LoginLocked? || pc.LogoutLocked?
  }

  ghost predicate OpFits(sh: Shared, t: Thread, pc: Pc) {
    && (OpOf(pc).Some? ==> IsAdmitted(sh, OpOf(pc).value) && OpOf(pc).value.owner == t)
    && (NotCommitted(pc) ==>
          && OpOf(pc).value !in sh.ghosts.commits
          && OpOf(pc).value.kind == (if pc.LogoutLocked? then Logout else Login))
    && (sh.lifecycleMu == Some(t) ==> (sh.ghosts.logoutPending <==> pc.LogoutLocked?))
    && (pc.LogoutLocked? ==> sh.operation == Some(pc.op))
    && (pc.LogoutDeleting? || pc.LogoutQueueing? ==> sh.core.restoreBlocked)
  }

  ghost predicate StoreFits(sh: Shared, pc: Pc) {
    match pc
    case Saving(_, _) => sh.ghosts.installed && !sh.core.restoreBlocked
    case Recording(_, _, failed) =>
      sh.ghosts.installed && !sh.core.restoreBlocked && (!failed ==> sh.store == sh.core.state)
    case Queueing(_, _) => Durable(sh)
    case RestoreLoading => !sh.core.restoreBlocked && !sh.core.retry.valid && DurableIfInstalled(sh)
    case RestoreInstalling(loaded) =>
      && !sh.core.restoreBlocked && !sh.core.retry.valid && sh.store == loaded && !loaded.IsZero()
      && (sh.ghosts.installed ==> loaded == sh.core.state)
    case RefusalLoading(_) => DurableIfInstalled(sh)
    case RefusalInstalling(_, _) => DurableIfInstalled(sh)
    case PersistSaving(r, id) => HoldsRetryClaim(sh.core, r, id)
    case PersistUpdating(r, id, failed) =>
      HoldsRetryClaim(sh.core, r, id) && (!failed ==> sh.store == sh.core.state)
    case _ => true
  }

  ghost predicate CommitFits(sh: Shared, t: Thread, pc: Pc) {
    OpFits(sh, t, pc) && StoreFits(sh, pc)
  }

  ghost predicate RelyOps(t: Thread, sh: Shared, sh': Shared) {
    && sh.ghosts.admitted <= sh'.ghosts.admitted
    && (forall op :: op in sh'.ghosts.commits && op.owner == t ==> op in sh.ghosts.commits)
    && (sh.lifecycleMu == Some(t) ==>
          && sh'.operation == sh.operation
          && sh'.ghosts.logoutPending == sh.ghosts.logoutPending)
    && (sh.commitMu == Some(t) ==> sh'.ghosts.installed == sh.ghosts.installed)
  }

  lemma RelyKeepsStoreFits(t: Thread, pc: Pc, sh: Shared, sh': Shared)
    requires Local(sh, t, pc) && Local(sh', t, pc) && Global(sh) && Global(sh')
    requires Base.Rely(t, sh, sh') && CommitFits(sh, t, pc) && RelyOps(t, sh, sh')
    ensures StoreFits(sh', pc)
  {
    hide Attempts.AttemptsOk, Attempts.AttemptFits, Attempts.RelyAttempts, OpFits;
  }

  lemma RelyKeepsOpFits(t: Thread, pc: Pc, sh: Shared, sh': Shared)
    requires Local(sh, t, pc) && Base.Rely(t, sh, sh')
    requires CommitFits(sh, t, pc) && RelyOps(t, sh, sh')
    ensures OpFits(sh', t, pc)
  {
    hide StoreFits, Attempts.AttemptFits, Attempts.RelyAttempts, G.Fits;
  }

  lemma FitsFrom(sh: Shared, t: Thread, pc: Pc)
    requires OpFits(sh, t, pc) && StoreFits(sh, pc)
    ensures CommitFits(sh, t, pc)
  {}

  lemma RelyKeepsCommitFits(t: Thread, pc: Pc, sh: Shared, sh': Shared)
    requires Local(sh, t, pc) && Local(sh', t, pc) && Global(sh) && Global(sh')
    requires Base.Rely(t, sh, sh') && CommitFits(sh, t, pc) && RelyOps(t, sh, sh')
    ensures CommitFits(sh', t, pc)
  {
    hide *;
    RelyKeepsOpFits(t, pc, sh, sh');
    RelyKeepsStoreFits(t, pc, sh, sh');
    FitsFrom(sh', t, pc);
  }

  ghost predicate CommitKeeps(sh: Shared, t: Thread, sh': Shared, pc': Pc) {
    && CommitInv(sh')
    && CommitFits(sh', t, pc')
    && forall u :: u != t ==> RelyOps(u, sh, sh')
  }

  // ----- steps that do not commit -----------------------------------------------

  ghost predicate SameCommits(sh: Shared, sh': Shared) {
    && sh'.core.state == sh.core.state
    && sh'.core.revision == sh.core.revision
    && sh'.core.restoreBlocked == sh.core.restoreBlocked
    && sh'.core.retry.valid == sh.core.retry.valid
    && sh'.core.retry.revision == sh.core.retry.revision
    && sh'.store == sh.store
    && sh'.commitMu == sh.commitMu
    && sh'.lifecycleMu == sh.lifecycleMu
    && sh'.lifecycleSeq == sh.lifecycleSeq
    && sh'.operation == sh.operation
    && sh'.ghosts.installed == sh.ghosts.installed
    && sh'.ghosts.log == sh.ghosts.log
    && sh'.ghosts.admitted == sh.ghosts.admitted
    && sh'.ghosts.commits == sh.ghosts.commits
    && sh'.ghosts.tombstone == sh.ghosts.tombstone
    && sh'.ghosts.logoutPending == sh.ghosts.logoutPending
  }

  lemma SameCommitsInv(sh: Shared, sh': Shared)
    requires CommitInv(sh) && SameCommits(sh, sh')
    ensures CommitInv(sh')
    ensures forall u :: RelyOps(u, sh, sh')
  {}

  lemma SameCommitsFit(sh: Shared, t: Thread, pc: Pc, sh': Shared, pc': Pc)
    requires CommitFits(sh, t, pc) && SameCommits(sh, sh')
    requires !HoldsCommit(pc') && pc'.LogoutLocked? == pc.LogoutLocked?
    requires OpOf(pc') == OpOf(pc) && NotCommitted(pc') == NotCommitted(pc)
    ensures CommitFits(sh', t, pc')
  {}

  lemma SameCommitsKeep(sh: Shared, t: Thread, pc: Pc, sh': Shared, pc': Pc)
    requires CommitInv(sh) && CommitFits(sh, t, pc) && SameCommits(sh, sh')
    requires !HoldsCommit(pc') && pc'.LogoutLocked? == pc.LogoutLocked?
    requires OpOf(pc') == OpOf(pc) && NotCommitted(pc') == NotCommitted(pc)
    ensures CommitKeeps(sh, t, sh', pc')
  {
    hide CommitInv, CommitFits, SameCommits, RelyOps;
    SameCommitsInv(sh, sh');
    SameCommitsFit(sh, t, pc, sh', pc');
  }

  // ----- commits ----------------------------------------------------------------

  /** A generation with a refresh token is no logged-out one. */
  lemma LiveAttempt(sh: Shared, a: nat)
    requires Global(sh) && Tombstone(sh)
    requires a in sh.attempts && sh.attempts[a].revision == sh.core.revision
    ensures !sh.core.restoreBlocked && sh.core.state == sh.attempts[a].snapshot
    ensures sh.core.state.refreshToken != ""
  {
    assert Attempts.AttemptOk(sh, a);
  }

  /** The current operation, committing for the first time, is newer than every
      operation that committed before. */
  lemma NewestCommit(sh: Shared, op: Operation)
    requires Admissions(sh) && CommitOrder(sh)
    requires sh.operation == Some(op) && op !in sh.ghosts.commits
    ensures forall c :: c in sh.ghosts.commits ==> c.id < op.id
    ensures CommitOrder(sh.(ghosts := sh.ghosts.(commits := sh.ghosts.commits + [op])))
  {
    forall c | c in sh.ghosts.commits ensures c.id < op.id {
      assert IsAdmitted(sh, c);
    }
  }

  /** The actions after which the commit state is as before. */
  predicate Neutral(act: Action) {
    || act.BeginToken? || act.JudgeToken? || act.BlockGeneration? || act.DecideToken? || act.Retire?
    || act.TryRefresh? || act.CancelWait? || act.ReadOutcome?
    || act.Launch? || act.GrantFails? || act.GrantSucceeds? || act.FenceFailure?
    || act.FinishAttempt? || act.CloseComplete?
    || act.StartLoop? || act.NextLoopAction? || act.WakeLoop? || act.FinishLoopAttempt?
    || act.StopLoop? || act.StartPersistLoop? || act.NextPersistAction?
  }

  ghost predicate NeutralEffect(sh: Shared, pc: Pc, sh': Shared, pc': Pc) {
    && SameCommits(sh, sh')
    && !HoldsCommit(pc') && OpOf(pc).None? && OpOf(pc').None?
    && !NotCommitted(pc) && !NotCommitted(pc')
  }

  // ----- every step -------------------------------------------------------------

  ghost predicate Before(sh: Shared, t: Thread, pc: Pc) {
    Global(sh) && Local(sh, t, pc) && CommitInv(sh) && CommitFits(sh, t, pc)
  }

  lemma BlockTouches(c: Core, revision: nat, snapshot: TokenState, now: Time)
    ensures
      var c' := BlockIntegrity(c, revision, now);
      c' == c.(schedule := c'.schedule, wake := c'.wake)
    ensures
      var c' := BlockPermanent(c, revision, snapshot, now);
      c' == c.(schedule := c'.schedule, wake := c'.wake)
  {}

  lemma TokenEffect(sh: Shared, t: Thread, pc: Pc, act: Action, sh': Shared, pc': Pc)
    requires G.Keyed(sh) && DoToken(sh, t, pc, act) == Some((sh', pc'))
    ensures NeutralEffect(sh, pc, sh', pc')
  {
    if act.BlockGeneration? && pc.TokenBlocking? {
      BlockTouches(sh.core, pc.revision, pc.snapshot, act.now);
    }
    hide BlockIntegrity, BlockPermanent, UsableToken;
  }

  lemma JoinPlaces(sh: Shared, t: Thread, pc: Pc, act: Action, sh': Shared, pc': Pc)
    requires DoJoin(sh, t, pc, act) == Some((sh', pc'))
    ensures !HoldsCommit(pc') && OpOf(pc).None? && OpOf(pc').None?
    ensures !NotCommitted(pc) && !NotCommitted(pc')
  {
    hide Admit, TryBegin;
  }

  lemma JoinEffect(sh: Shared, t: Thread, pc: Pc, act: Action, sh': Shared, pc': Pc)
    requires G.Keyed(sh) && DoJoin(sh, t, pc, act) == Some((sh', pc'))
    ensures NeutralEffect(sh, pc, sh', pc')
  {
    JoinPlaces(sh, t, pc, act, sh', pc');
    hide Admit, TryBegin, HoldsCommit, OpOf, NotCommitted;
    if pc.TokenTrying? { CoreEvents.TryBeginTouches(sh, t, pc.snapshot, pc.revision, 0); }
    if pc.LoopTrying? {
      CoreEvents.TryBeginTouches(sh, t, pc.claim.state, pc.claim.revision, pc.claim.id);
    }
  }

  lemma GrantPlaces(sh: Shared, t: Thread, pc: Pc, act: Action, sh': Shared, pc': Pc)
    requires DoGrant(sh, t, pc, act) == Some((sh', pc')) && Neutral(act)
    ensures !HoldsCommit(pc') && OpOf(pc).None? && OpOf(pc').None?
    ensures !NotCommitted(pc) && !NotCommitted(pc')
  {
    hide RefreshedState, Install;
  }

  lemma GrantEffect(sh: Shared, t: Thread, pc: Pc, act: Action, sh': Shared, pc': Pc)
    requires G.Keyed(sh) && DoGrant(sh, t, pc, act) == Some((sh', pc')) && Neutral(act)
    ensures NeutralEffect(sh, pc, sh', pc')
  {
    GrantPlaces(sh, t, pc, act, sh', pc');
    hide RefreshedState, Install, HoldsCommit, OpOf, NotCommitted;
  }

  lemma CloseEffect(sh: Shared, t: Thread, pc: Pc, act: Action, sh': Shared, pc': Pc)
    requires G.Keyed(sh) && DoClose(sh, t, pc, act) == Some((sh', pc'))
    ensures NeutralEffect(sh, pc, sh', pc')
  {}

  lemma DecisionTouches(c: Core, now: Time)
    ensures
      var c' := NextRefresh(c, now).0;
      c' == c.(schedule := c'.schedule, refreshClaimSeq := c'.refreshClaimSeq, wake := c'.wake)
  {}

  lemma ReleaseTouches(c: Core, claim: Claim, result: AttemptResult, now: Time)
    ensures
      var c' := FinishClaim(c, claim, result, now);
      c' == c.(schedule := c'.schedule, wake := c'.wake)
  {}

  lemma LoopPlaces(sh: Shared, t: Thread, pc: Pc, act: Action, sh': Shared, pc': Pc)
    requires DoLoop(sh, t, pc, act) == Some((sh', pc')) && Neutral(act)
    ensures !HoldsCommit(pc') && OpOf(pc).None? && OpOf(pc').None?
    ensures !NotCommitted(pc) && !NotCommitted(pc')
  {
    hide NextRefresh, FinishClaim, HoldsRefreshClaim;
  }

  lemma LoopEffect(sh: Shared, t: Thread, pc: Pc, act: Action, sh': Shared, pc': Pc)
    requires G.Keyed(sh) && DoLoop(sh, t, pc, act) == Some((sh', pc')) && Neutral(act)
    ensures NeutralEffect(sh, pc, sh', pc')
  {
    LoopPlaces(sh, t, pc, act, sh', pc');
    hide HoldsCommit, OpOf, NotCommitted;
    if act.NextLoopAction? { DecisionTouches(sh.core, act.now); }
    if act.FinishLoopAttempt? && pc.LoopDone? {
      ReleaseTouches(sh.core, pc.claim, pc.result, act.now);
    }
    hide NextRefresh, FinishClaim, HoldsRefreshClaim;
  }

  lemma PersistEffect(sh: Shared, t: Thread, pc: Pc, act: Action, sh': Shared, pc': Pc)
    requires G.Keyed(sh) && DoPersist(sh, t, pc, act) == Some((sh', pc')) && Neutral(act)
    ensures NeutralEffect(sh, pc, sh', pc')
  {}

  lemma SoundKeyed(sh: Shared, t: Thread, pc: Pc)
    requires Before(sh, t, pc)
    ensures G.Keyed(sh)
  {}

  lemma NeutralKeeps(sh: Shared, t: Thread, pc: Pc, sh': Shared, pc': Pc)
    requires Before(sh, t, pc) && NeutralEffect(sh, pc, sh', pc')
    ensures CommitKeeps(sh, t, sh', pc')
  {
    hide Local, CommitInv, CommitFits, SameCommits;
    SameCommitsKeep(sh, t, pc, sh', pc');
  }

  lemma InstallLoginKeeps(sh: Shared, t: Thread, pc: Pc, alive: bool, sh': Shared, pc': Pc)
    requires Before(sh, t, pc) && DoLogin(sh, t, pc, InstallLogin(alive)) == Some((sh', pc'))
    ensures CommitKeeps(sh, t, sh', pc')
  {
    hide Attempts.AttemptsOk, Attempts.AttemptFits, G.SnapshotFits, G.RefreshClaimFits;
    if sh.operation == Some(pc.op) {
      NewestCommit(sh, pc.op);
    }
  }

  lemma BeginLoginKeeps(sh: Shared, t: Thread, pc: Pc, sh': Shared, pc': Pc)
    requires Before(sh, t, pc) && DoLogin(sh, t, pc, BeginLogin) == Some((sh', pc'))
    ensures CommitKeeps(sh, t, sh', pc')
  {
    hide Attempts.AttemptsOk, Attempts.AttemptFits, G.SnapshotFits, G.RefreshClaimFits;
  }

  lemma FlowStore(sh: Shared, t: Thread, pc: Pc, act: Action, sh': Shared, pc': Pc)
    requires !act.InstallLogin? && DoLogin(sh, t, pc, act) == Some((sh', pc'))
    ensures StoreFits(sh', pc')
  {}

  lemma FlowPlaces(sh: Shared, t: Thread, pc: Pc, act: Action, sh': Shared, pc': Pc)
    requires LocksFit(sh, t, pc) && DoLogin(sh, t, pc, act) == Some((sh', pc'))
    requires !act.InstallLogin? && !act.BeginLogin?
    ensures OpOf(pc').Some? ==> OpOf(pc') == OpOf(pc)
    ensures NotCommitted(pc') ==> NotCommitted(pc) && !pc.LogoutLocked?
    ensures !pc'.LogoutLocked? && !pc'.LogoutDeleting? && !pc'.LogoutQueueing?
    ensures sh'.lifecycleMu == Some(t) ==> sh.lifecycleMu == None
  {
    hide Install;
  }

  lemma FlowOps(sh: Shared, t: Thread, pc: Pc, act: Action, sh': Shared, pc': Pc)
    requires CommitInv(sh) && LocksFit(sh, t, pc) && CommitFits(sh, t, pc)
    requires !act.InstallLogin? && !act.BeginLogin?
    requires DoLogin(sh, t, pc, act) == Some((sh', pc'))
    ensures OpFits(sh', t, pc')
  {
    CoreEvents.FlowTouches(sh, t, pc, act, sh', pc');
    FlowAdmits(sh, t, pc, act, sh', pc');
    FlowPlaces(sh, t, pc, act, sh', pc');
    hide CommitOrder, EventOrder, DurableIfInstalled, StoreFits, DoLogin, LocksFit;
  }

  /** The browser flow in between commits nothing. */
  lemma FlowKeeps(sh: Shared, t: Thread, pc: Pc, act: Action, sh': Shared, pc': Pc)
    requires Before(sh, t, pc) && DoLogin(sh, t, pc, act) == Some((sh', pc'))
    requires !act.InstallLogin? && !act.BeginLogin?
    ensures CommitKeeps(sh, t, sh', pc')
  {
    hide *;
    InvOf(sh, t, pc);
    FlowInv(sh, t, pc, act, sh', pc');
    FlowOps(sh, t, pc, act, sh', pc');
    FlowStore(sh, t, pc, act, sh', pc');
    FitsFrom(sh', t, pc');
    CommitKeepsFrom(sh, t, sh', pc');
  }

  lemma InvOf(sh: Shared, t: Thread, pc: Pc)
    requires Before(sh, t, pc)
    ensures CommitInv(sh) && LocksFit(sh, t, pc) && CommitFits(sh, t, pc)
  {}

  lemma FlowInv(sh: Shared, t: Thread, pc: Pc, act: Action, sh': Shared, pc': Pc)
    requires CommitInv(sh) && LocksFit(sh, t, pc)
    requires DoLogin(sh, t, pc, act) == Some((sh', pc'))
    requires !act.InstallLogin? && !act.BeginLogin?
    ensures CommitInv(sh')
    ensures forall u :: u != t ==> RelyOps(u, sh, sh')
  {
    CoreEvents.FlowTouches(sh, t, pc, act, sh', pc');
    FlowAdmits(sh, t, pc, act, sh', pc');
    hide Do, DoLogin, Install;
  }

  lemma FlowAdmits(sh: Shared, t: Thread, pc: Pc, act: Action, sh': Shared, pc': Pc)
    requires DoLogin(sh, t, pc, act) == Some((sh', pc')) && !act.InstallLogin? && !act.BeginLogin?
    ensures sh'.ghosts.admitted == sh.ghosts.admitted && sh'.lifecycleSeq == sh.lifecycleSeq
    ensures sh'.operation == sh.operation || sh'.operation == None
    ensures
      || sh'.lifecycleMu == sh.lifecycleMu
      || (sh.lifecycleMu == None && sh'.lifecycleMu == Some(t))
  {
    hide Install;
  }

  lemma LoginKeeps(sh: Shared, t: Thread, pc: Pc, act: Action, sh': Shared, pc': Pc)
    requires Before(sh, t, pc) && DoLogin(sh, t, pc, act) == Some((sh', pc'))
    ensures CommitKeeps(sh, t, sh', pc')
  {
    hide *;
    if act.InstallLogin? {
      InstallLoginKeeps(sh, t, pc, act.alive, sh', pc');
    } else if act.BeginLogin? {
      BeginLoginKeeps(sh, t, pc, sh', pc');
    } else {
      FlowKeeps(sh, t, pc, act, sh', pc');
    }
  }

  lemma ClearStateKeeps(sh: Shared, t: Thread, pc: Pc, sh': Shared, pc': Pc)
    requires Before(sh, t, pc) && DoLogout(sh, t, pc, ClearState) == Some((sh', pc'))
    ensures CommitKeeps(sh, t, sh', pc')
  {
    hide Attempts.AttemptsOk, Attempts.AttemptFits, G.SnapshotFits, G.RefreshClaimFits;
    if sh.operation == Some(pc.op) {
      NewestCommit(sh, pc.op);
    }
  }

  /** A report of the current generation comes last. */
  lemma ReportsInOrder(sh: Shared, event: Events.EventName, reports: Option<nat>)
    requires EventOrder(sh) && (reports.Some? ==> reports.value == sh.core.revision)
    ensures EventOrder(Enqueue(sh, event, reports))
  {
    var log, log' := sh.ghosts.log, Enqueue(sh, event, reports).ghosts.log;
    assert forall e :: e in log' ==> e in log || e == log'[|log|];
    forall i, j | 0 <= i < j < |log'| && log'[i].reports.Some? && log'[j].reports.Some?
      ensures log'[i].reports.value <= log'[j].reports.value
    {
      assert log[i] in log;
    }
  }

  lemma BeginLogoutKeeps(sh: Shared, t: Thread, pc: Pc, act: Action, sh': Shared, pc': Pc)
    requires Before(sh, t, pc) && DoLogout(sh, t, pc, act) == Some((sh', pc')) && act.BeginLogout?
    ensures CommitKeeps(sh, t, sh', pc')
  {
    hide Attempts.AttemptsOk, Attempts.AttemptFits, G.SnapshotFits, G.RefreshClaimFits;
  }

  lemma DeletingKeeps(sh: Shared, t: Thread, pc: Pc, act: Action, sh': Shared, pc': Pc)
    requires Before(sh, t, pc) && DoLogout(sh, t, pc, act) == Some((sh', pc')) && act.DeleteReturns?
    ensures CommitKeeps(sh, t, sh', pc')
  {
    hide Attempts.AttemptsOk, Attempts.AttemptFits, G.SnapshotFits, G.RefreshClaimFits;
  }

  lemma LoggedOutKeeps(sh: Shared, t: Thread, pc: Pc, act: Action, sh': Shared, pc': Pc)
    requires Before(sh, t, pc) && DoLogout(sh, t, pc, act) == Some((sh', pc')) && act.QueueLoggedOut?
    ensures CommitKeeps(sh, t, sh', pc')
  {
    ReportsInOrder(sh, Events.LoggedOut, Some(pc.revision));
    hide Attempts.AttemptsOk, Attempts.AttemptFits, G.SnapshotFits, G.RefreshClaimFits, EventOrder;
  }

  lemma LogoutActions(sh: Shared, t: Thread, pc: Pc, act: Action)
    requires DoLogout(sh, t, pc, act).Some?
    ensures act.BeginLogout? || act.ClearState? || act.DeleteReturns? || act.QueueLoggedOut?
  {}

  lemma LogoutKeeps(sh: Shared, t: Thread, pc: Pc, act: Action, sh': Shared, pc': Pc)
    requires Before(sh, t, pc) && DoLogout(sh, t, pc, act) == Some((sh', pc'))
    ensures CommitKeeps(sh, t, sh', pc')
  {
    hide *;
    if act.ClearState? {
      ClearStateKeeps(sh, t, pc, sh', pc');
    } else if act.BeginLogout? {
      BeginLogoutKeeps(sh, t, pc, act, sh', pc');
    } else if act.DeleteReturns? {
      DeletingKeeps(sh, t, pc, act, sh', pc');
    } else {
      LogoutActions(sh, t, pc, act);
      LoggedOutKeeps(sh, t, pc, act, sh', pc');
    }
  }

  lemma StoringKeeps(sh: Shared, t: Thread, pc: Pc, act: Action, sh': Shared, pc': Pc)
    requires !act.QueueCommitEvent?
    requires Before(sh, t, pc) && DoCommit(sh, t, pc, act) == Some((sh', pc'))
    ensures CommitKeeps(sh, t, sh', pc')
  {
    hide Attempts.AttemptsOk, Attempts.AttemptFits, G.SnapshotFits, G.RefreshClaimFits;
  }

  lemma QueueingInv(sh: Shared, t: Thread, pc: Pc, sh': Shared, pc': Pc)
    requires Before(sh, t, pc) && DoCommit(sh, t, pc, QueueCommitEvent) == Some((sh', pc'))
    ensures CommitInv(sh')
    ensures forall u :: u != t ==> RelyOps(u, sh, sh')
  {
    ReportsInOrder(sh, EventOf(pc.who), Some(pc.revision));
    hide Attempts.AttemptsOk, Attempts.AttemptFits, G.SnapshotFits, G.RefreshClaimFits, EventOrder;
  }

  lemma QueueingFits(sh: Shared, t: Thread, pc: Pc, sh': Shared, pc': Pc)
    requires Before(sh, t, pc) && DoCommit(sh, t, pc, QueueCommitEvent) == Some((sh', pc'))
    ensures CommitFits(sh', t, pc')
  {
    hide Attempts.AttemptsOk, Attempts.AttemptFits, G.Fits, G.Shape, EventOrder, CommitOrder;
  }

  lemma QueueingKeeps(sh: Shared, t: Thread, pc: Pc, sh': Shared, pc': Pc)
    requires Before(sh, t, pc) && DoCommit(sh, t, pc, QueueCommitEvent) == Some((sh', pc'))
    ensures CommitKeeps(sh, t, sh', pc')
  {
    hide *;
    QueueingInv(sh, t, pc, sh', pc');
    QueueingFits(sh, t, pc, sh', pc');
    CommitKeepsFrom(sh, t, sh', pc');
  }

  lemma CommittingKeeps(sh: Shared, t: Thread, pc: Pc, act: Action, sh': Shared, pc': Pc)
    requires Before(sh, t, pc) && DoCommit(sh, t, pc, act) == Some((sh', pc'))
    ensures CommitKeeps(sh, t, sh', pc')
  {
    hide *;
    if act.QueueCommitEvent? {
      QueueingKeeps(sh, t, pc, sh', pc');
    } else {
      StoringKeeps(sh, t, pc, act, sh', pc');
    }
  }

  lemma CommitKeepsFrom(sh: Shared, t: Thread, sh': Shared, pc': Pc)
    requires CommitInv(sh') && CommitFits(sh', t, pc') && forall u :: u != t ==> RelyOps(u, sh, sh')
    ensures CommitKeeps(sh, t, sh', pc')
  {
    hide CommitInv, CommitFits, RelyOps;
  }

  lemma RestoredOrders(sh: Shared, t: Thread, pc: Pc, sh': Shared, pc': Pc)
    requires CommitInv(sh) && DoRestore(sh, t, pc, InstallRestored) == Some((sh', pc'))
    ensures Admissions(sh') && CommitOrder(sh') && EventOrder(sh')
  {
    hide Tombstone, LogoutStands, DurableIfInstalled;
  }

  lemma RestoredInv(sh: Shared, t: Thread, pc: Pc, sh': Shared, pc': Pc)
    requires Before(sh, t, pc) && DoRestore(sh, t, pc, InstallRestored) == Some((sh', pc'))
    ensures CommitInv(sh')
  {
    hide Global, OpFits, Attempts.AttemptFits, G.Fits, Admissions, CommitOrder, EventOrder;
    RestoredOrders(sh, t, pc, sh', pc');
  }

  lemma RestoredFits(sh: Shared, t: Thread, pc: Pc, sh': Shared, pc': Pc)
    requires Before(sh, t, pc) && DoRestore(sh, t, pc, InstallRestored) == Some((sh', pc'))
    ensures CommitFits(sh', t, pc') && forall u :: u != t ==> RelyOps(u, sh, sh')
  {
    hide Global, CommitInv, Attempts.AttemptFits, G.Fits;
  }

  lemma InstallRestoredKeeps(sh: Shared, t: Thread, pc: Pc, sh': Shared, pc': Pc)
    requires Before(sh, t, pc) && DoRestore(sh, t, pc, InstallRestored) == Some((sh', pc'))
    ensures CommitKeeps(sh, t, sh', pc')
  {
    hide *;
    RestoredInv(sh, t, pc, sh', pc');
    RestoredFits(sh, t, pc, sh', pc');
    CommitKeepsFrom(sh, t, sh', pc');
  }

  lemma RestoreKeeps(sh: Shared, t: Thread, pc: Pc, act: Action, sh': Shared, pc': Pc)
    requires Before(sh, t, pc) && DoRestore(sh, t, pc, act) == Some((sh', pc'))
    ensures CommitKeeps(sh, t, sh', pc')
  {
    hide Attempts.AttemptsOk, Attempts.AttemptFits, G.SnapshotFits, G.RefreshClaimFits;
    if act.InstallRestored? {
      InstallRestoredKeeps(sh, t, pc, sh', pc');
    }
  }

  lemma TokenKeeps(sh: Shared, t: Thread, pc: Pc, act: Action, sh': Shared, pc': Pc)
    requires Before(sh, t, pc) && DoToken(sh, t, pc, act) == Some((sh', pc'))
    ensures CommitKeeps(sh, t, sh', pc')
  {
    hide *;
    SoundKeyed(sh, t, pc);
    TokenEffect(sh, t, pc, act, sh', pc');
    NeutralKeeps(sh, t, pc, sh', pc');
  }

  lemma JoinKeeps(sh: Shared, t: Thread, pc: Pc, act: Action, sh': Shared, pc': Pc)
    requires Before(sh, t, pc) && DoJoin(sh, t, pc, act) == Some((sh', pc'))
    ensures CommitKeeps(sh, t, sh', pc')
  {
    hide *;
    SoundKeyed(sh, t, pc);
    JoinEffect(sh, t, pc, act, sh', pc');
    NeutralKeeps(sh, t, pc, sh', pc');
  }

  lemma GrantKeeps(sh: Shared, t: Thread, pc: Pc, act: Action, sh': Shared, pc': Pc)
    requires Before(sh, t, pc) && DoGrant(sh, t, pc, act) == Some((sh', pc'))
    ensures CommitKeeps(sh, t, sh', pc')
  {
    hide Attempts.AttemptsOk, Attempts.AttemptFits, G.SnapshotFits, G.RefreshClaimFits, G.RetryClaimFits;
    if Neutral(act) {
      GrantEffect(sh, t, pc, act, sh', pc');
      SameCommitsKeep(sh, t, pc, sh', pc');
    } else if sh.attempts[pc.attempt].revision == sh.core.revision {
      LiveAttempt(sh, pc.attempt);
    }
  }

  lemma InstallRefusalKeeps(sh: Shared, t: Thread, pc: Pc, sh': Shared, pc': Pc)
    requires Before(sh, t, pc) && DoRefusal(sh, t, pc, InstallRefusal) == Some((sh', pc'))
    ensures CommitKeeps(sh, t, sh', pc')
  {
    hide Attempts.AttemptsOk, Attempts.AttemptFits, G.SnapshotFits, G.RefreshClaimFits, G.RetryClaimFits;
    if sh.attempts[pc.attempt].revision == sh.core.revision {
      LiveAttempt(sh, pc.attempt);
    }
  }

  lemma RefusalReads(sh: Shared, t: Thread, pc: Pc, act: Action, sh': Shared, pc': Pc)
    requires Before(sh, t, pc) && DoRefusal(sh, t, pc, act) == Some((sh', pc')) && !act.InstallRefusal?
    ensures CommitKeeps(sh, t, sh', pc')
  {
    hide Attempts.AttemptsOk, Attempts.AttemptFits, G.Fits, G.Shape;
  }

  lemma RefusalKeeps(sh: Shared, t: Thread, pc: Pc, act: Action, sh': Shared, pc': Pc)
    requires Before(sh, t, pc) && DoRefusal(sh, t, pc, act) == Some((sh', pc'))
    ensures CommitKeeps(sh, t, sh', pc')
  {
    hide *;
    if act.InstallRefusal? {
      InstallRefusalKeeps(sh, t, pc, sh', pc');
    } else {
      RefusalReads(sh, t, pc, act, sh', pc');
    }
  }

  lemma CloseKeeps(sh: Shared, t: Thread, pc: Pc, act: Action, sh': Shared, pc': Pc)
    requires Before(sh, t, pc) && DoClose(sh, t, pc, act) == Some((sh', pc'))
    ensures CommitKeeps(sh, t, sh', pc')
  {
    hide *;
    SoundKeyed(sh, t, pc);
    CloseEffect(sh, t, pc, act, sh', pc');
    NeutralKeeps(sh, t, pc, sh', pc');
  }

  lemma EmitKeeps(sh: Shared, t: Thread, pc: Pc, act: Action, sh': Shared, pc': Pc)
    requires Before(sh, t, pc) && DoLoop(sh, t, pc, act) == Some((sh', pc')) && !Neutral(act)
    ensures CommitKeeps(sh, t, sh', pc')
  {
    hide Attempts.AttemptsOk, Attempts.AttemptFits, G.Fits, G.Shape, NextRefresh, FinishClaim,
         ReleaseClaim;
  }

  lemma LoopKeeps(sh: Shared, t: Thread, pc: Pc, act: Action, sh': Shared, pc': Pc)
    requires Before(sh, t, pc) && DoLoop(sh, t, pc, act) == Some((sh', pc'))
    ensures CommitKeeps(sh, t, sh', pc')
  {
    hide *;
    if Neutral(act) {
      SoundKeyed(sh, t, pc);
      LoopEffect(sh, t, pc, act, sh', pc');
      NeutralKeeps(sh, t, pc, sh', pc');
    } else {
      EmitKeeps(sh, t, pc, act, sh', pc');
    }
  }

  lemma FinishRetryKeeps(sh: Shared, t: Thread, pc: Pc, now: Time, sh': Shared, pc': Pc)
    requires Before(sh, t, pc) && DoPersist(sh, t, pc, FinishRetrySave(now)) == Some((sh', pc'))
    ensures CommitKeeps(sh, t, sh', pc')
  {
    hide Attempts.AttemptsOk, Attempts.AttemptFits, G.SnapshotFits, G.RefreshClaimFits;
  }

  lemma PersistKeeps(sh: Shared, t: Thread, pc: Pc, act: Action, sh': Shared, pc': Pc)
    requires Before(sh, t, pc) && DoPersist(sh, t, pc, act) == Some((sh', pc'))
    ensures CommitKeeps(sh, t, sh', pc')
  {
    hide Attempts.AttemptsOk, Attempts.AttemptFits, G.SnapshotFits, G.RefreshClaimFits,
         NextPersistence, FinishRetry;
    if Neutral(act) {
      PersistEffect(sh, t, pc, act, sh', pc');
      SameCommitsKeep(sh, t, pc, sh', pc');
    } else if act.FinishRetrySave? {
      FinishRetryKeeps(sh, t, pc, act.now, sh', pc');
    }
  }

  lemma FailInitKeeps(sh: Shared, t: Thread, pc: Pc, act: Action, sh': Shared, pc': Pc)
    requires Before(sh, t, pc) && DoInit(sh, t, pc, act) == Some((sh', pc')) && act.FailInit?
    ensures CommitKeeps(sh, t, sh', pc')
  {
    hide Attempts.AttemptsOk, Attempts.AttemptFits, G.Fits, G.Shape;
  }

  lemma InitEffect(sh: Shared, t: Thread, pc: Pc, act: Action, sh': Shared, pc': Pc)
    requires DoInit(sh, t, pc, act) == Some((sh', pc')) && !act.FailInit?
    ensures SameCommits(sh, sh')
    ensures !HoldsCommit(pc') && pc'.LogoutLocked? == pc.LogoutLocked?
    ensures OpOf(pc') == OpOf(pc) && NotCommitted(pc') == NotCommitted(pc)
  {}

  lemma InitKeeps(sh: Shared, t: Thread, pc: Pc, act: Action, sh': Shared, pc': Pc)
    requires Before(sh, t, pc) && DoInit(sh, t, pc, act) == Some((sh', pc'))
    ensures CommitKeeps(sh, t, sh', pc')
  {
    hide *;
    if act.FailInit? {
      FailInitKeeps(sh, t, pc, act, sh', pc');
    } else {
      InvOf(sh, t, pc);
      InitEffect(sh, t, pc, act, sh', pc');
      SameCommitsKeep(sh, t, pc, sh', pc');
    }
  }

  lemma TickKeeps(sh: Shared, t: Thread, pc: Pc, sh': Shared)
    requires Before(sh, t, pc) && sh' == sh.(clock := sh'.clock)
    ensures CommitKeeps(sh, t, sh', pc)
  {
    SameCommitsInv(sh, sh');
  }

  lemma StepKeepsCommits(sh: Shared, t: Thread, pc: Pc, act: Action, sh': Shared, pc': Pc)
    requires Before(sh, t, pc) && Do(sh, t, pc, act) == Some((sh', pc'))
    ensures CommitKeeps(sh, t, sh', pc')
  {
    hide *;
    Dispatch(sh, t, pc, act);
    match GroupOf(act)
    case TimeGroup => TickKeeps(sh, t, pc, sh');
    case LoginGroup => LoginKeeps(sh, t, pc, act, sh', pc');
    case LogoutGroup => LogoutKeeps(sh, t, pc, act, sh', pc');
    case CommitGroup => CommittingKeeps(sh, t, pc, act, sh', pc');
    case RestoreGroup => RestoreKeeps(sh, t, pc, act, sh', pc');
    case TokenGroup => TokenKeeps(sh, t, pc, act, sh', pc');
    case JoinGroup => JoinKeeps(sh, t, pc, act, sh', pc');
    case GrantGroup => GrantKeeps(sh, t, pc, act, sh', pc');
    case RefusalGroup => RefusalKeeps(sh, t, pc, act, sh', pc');
    case CloseGroup => CloseKeeps(sh, t, pc, act, sh', pc');
    case LoopGroup => LoopKeeps(sh, t, pc, act, sh', pc');
    case PersistGroup => PersistKeeps(sh, t, pc, act, sh', pc');
    case InitGroup => InitKeeps(sh, t, pc, act, sh', pc');
  }

  ghost predicate CommitsHold(s: System) {
    && Inv(s)
    && CommitInv(s.shared)
    && forall t :: CommitFits(s.shared, t, PcOf(s, t))
  }

  lemma SystemStepKeepsCommits(s: System, t: Thread, act: Action, s': System)
    requires CommitsHold(s) && StepTo(s, t, act) == Some(s')
    ensures CommitsHold(s')
  {
    SystemStepKeeps(s, t, act, s');
    StepKeepsCommits(s.shared, t, PcOf(s, t), act, s'.shared, PcOf(s', t));
    forall u ensures CommitFits(s'.shared, u, PcOf(s', u)) {
      if u != t {
        RelyKeepsCommitFits(u, PcOf(s, u), s.shared, s'.shared);
      }
    }
  }

  lemma {:induction false} RunCommits(r: Run, i: nat)
    requires IsRun(r) && i < |r.states|
    ensures CommitsHold(r.states[i])
  {
    if i == 0 {
      InitialInv(r.states[0]);
    } else {
      RunCommits(r, i - 1);
      assert IsStep(r, i - 1);
      SystemStepKeepsCommits(r.states[i - 1], r.labels[i - 1].thread, r.labels[i - 1].action,
                             r.states[i]);
    }
  }
}
