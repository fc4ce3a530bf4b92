/** Ownership of the locks that are held across steps. */
module Locks {
  import opened Basics
  import opened ClientCore
  import opened Errors
  import opened Places
  import opened Protocol
  import opened StageTimes
  import opened Tokens
  import CoreEvents

  /** A thread owns a lock exactly while its program point says so. */
  ghost predicate LocksFit(sh: Shared, t: Thread, pc: Pc) {
    && (sh.commitMu == Some(t) <==> HoldsCommit(pc))
    && (sh.lifecycleMu == Some(t) <==> HoldsLifecycle(pc))
    && (sh.flowPermit == Some(t) <==> HoldsPermit(pc))
  }

  /** No step takes or gives away another thread's lock. */
  ghost predicate RelyLocks(t: Thread, sh: Shared, sh': Shared) {
    && (sh.commitMu == Some(t) <==> sh'.commitMu == Some(t))
    && (sh.lifecycleMu == Some(t) <==> sh'.lifecycleMu == Some(t))
    && (sh.flowPermit == Some(t) <==> sh'.flowPermit == Some(t))
  }

  ghost predicate Keeps(sh: Shared, t: Thread, sh': Shared, pc': Pc) {
    && LocksFit(sh', t, pc')
    && forall u :: u != t ==> RelyLocks(u, sh, sh')
  }

  lemma TickKeeps(sh: Shared, t: Thread, pc: Pc, sh': Shared)
    requires LocksFit(sh, t, pc) && sh' == sh.(clock := sh'.clock)
    ensures Keeps(sh, t, sh', pc)
  {}

  lemma LoginKeeps(sh: Shared, t: Thread, pc: Pc, act: Action, sh': Shared, pc': Pc)
    requires LocksFit(sh, t, pc) && DoLogin(sh, t, pc, act) == Some((sh', pc'))
    ensures Keeps(sh, t, sh', pc')
  {
    hide *;
    if act.InstallLogin? {
      InstallLoginKeeps(sh, t, pc, act, sh', pc');
    } else if act.TakePermit? || act.HandlerReturns? {
      HandlerKeeps(sh, t, pc, act, sh', pc');
    } else {
      FlowKeeps(sh, t, pc, act, sh', pc');
    }
  }

  lemma InstallLoginKeeps(sh: Shared, t: Thread, pc: Pc, act: Action, sh': Shared, pc': Pc)
    requires LocksFit(sh, t, pc) && act.InstallLogin? && DoLogin(sh, t, pc, act) == Some((sh', pc'))
    ensures Keeps(sh, t, sh', pc')
  {}

  lemma HandlerKeeps(sh: Shared, t: Thread, pc: Pc, act: Action, sh': Shared, pc': Pc)
    requires act.TakePermit? || act.HandlerReturns?
    requires LocksFit(sh, t, pc) && DoLogin(sh, t, pc, act) == Some((sh', pc'))
    ensures Keeps(sh, t, sh', pc')
  {
    hide Install;
  }

  lemma FlowKeeps(sh: Shared, t: Thread, pc: Pc, act: Action, sh': Shared, pc': Pc)
    requires !act.InstallLogin? && !act.TakePermit? && !act.HandlerReturns?
    requires LocksFit(sh, t, pc) && DoLogin(sh, t, pc, act) == Some((sh', pc'))
    ensures Keeps(sh, t, sh', pc')
  {
    hide Install;
  }

  lemma LogoutKeeps(sh: Shared, t: Thread, pc: Pc, act: Action, sh': Shared, pc': Pc)
    requires LocksFit(sh, t, pc) && DoLogout(sh, t, pc, act) == Some((sh', pc'))
    ensures Keeps(sh, t, sh', pc')
  {}

  lemma CommitKeeps(sh: Shared, t: Thread, pc: Pc, act: Action, sh': Shared, pc': Pc)
    requires LocksFit(sh, t, pc) && DoCommit(sh, t, pc, act) == Some((sh', pc'))
    ensures Keeps(sh, t, sh', pc')
  {}

  lemma RestoreKeeps(sh: Shared, t: Thread, pc: Pc, act: Action, sh': Shared, pc': Pc)
    requires LocksFit(sh, t, pc) && DoRestore(sh, t, pc, act) == Some((sh', pc'))
    ensures Keeps(sh, t, sh', pc')
  {}

  lemma TokenKeeps(sh: Shared, t: Thread, pc: Pc, act: Action, sh': Shared, pc': Pc)
    requires LocksFit(sh, t, pc) && DoToken(sh, t, pc, act) == Some((sh', pc'))
    ensures Keeps(sh, t, sh', pc')
  {}

  lemma JoinKeeps(sh: Shared, t: Thread, pc: Pc, act: Action, sh': Shared, pc': Pc)
    requires LocksFit(sh, t, pc) && DoJoin(sh, t, pc, act) == Some((sh', pc'))
    ensures Keeps(sh, t, sh', pc')
  {
    hide Admit, TryBegin;
    if pc.TokenTrying? { CoreEvents.TryBeginTouches(sh, t, pc.snapshot, pc.revision, 0); }
    if pc.LoopTrying? {
      CoreEvents.TryBeginTouches(sh, t, pc.claim.state, pc.claim.revision, pc.claim.id);
    }
  }

  lemma GrantKeeps(sh: Shared, t: Thread, pc: Pc, act: Action, sh': Shared, pc': Pc)
    requires LocksFit(sh, t, pc) && DoGrant(sh, t, pc, act) == Some((sh', pc'))
    ensures Keeps(sh, t, sh', pc')
  {}

  lemma RefusalKeeps(sh: Shared, t: Thread, pc: Pc, act: Action, sh': Shared, pc': Pc)
    requires LocksFit(sh, t, pc) && DoRefusal(sh, t, pc, act) == Some((sh', pc'))
    ensures Keeps(sh, t, sh', pc')
  {}

  lemma CloseKeeps(sh: Shared, t: Thread, pc: Pc, act: Action, sh': Shared, pc': Pc)
    requires LocksFit(sh, t, pc) && DoClose(sh, t, pc, act) == Some((sh', pc'))
    ensures Keeps(sh, t, sh', pc')
  {}

  lemma LoopKeeps(sh: Shared, t: Thread, pc: Pc, act: Action, sh': Shared, pc': Pc)
    requires LocksFit(sh, t, pc) && DoLoop(sh, t, pc, act) == Some((sh', pc'))
    ensures Keeps(sh, t, sh', pc')
  {
    hide NextRefresh, FinishClaim, HoldsRefreshClaim;
  }

  lemma PersistKeeps(sh: Shared, t: Thread, pc: Pc, act: Action, sh': Shared, pc': Pc)
    requires LocksFit(sh, t, pc) && DoPersist(sh, t, pc, act) == Some((sh', pc'))
    ensures Keeps(sh, t, sh', pc')
  {}

  lemma InitKeeps(sh: Shared, t: Thread, pc: Pc, act: Action, sh': Shared, pc': Pc)
    requires LocksFit(sh, t, pc) && DoInit(sh, t, pc, act) == Some((sh', pc'))
    ensures Keeps(sh, t, sh', pc')
  {}
}
