/** What being at a program point means for a thread. */
module Places {
  import opened Basics
  import opened ClientCore
  import opened Protocol
  import opened Tokens

  // ----- what a program point implies -------------------------------------------

  predicate HoldsCommit(pc: Pc) {
    || pc.Saving? || pc.Recording? || pc.Queueing?
    || pc.LogoutDeleting? || pc.LogoutQueueing?
    || pc.RestoreLoading? || pc.RestoreInstalling?
    || pc.RefusalLoading? || pc.RefusalInstalling?
    || pc.PersistSaving? || pc.PersistUpdating?
  }

  predicate HoldsLifecycle(pc: Pc) {
    || pc.LoginLocked? || pc.LogoutLocked? || pc.LogoutDeleting? || pc.LogoutQueueing?
    || ((pc.Saving? || pc.Recording? || pc.Queueing?) && pc.who.ByLogin?)
  }

  predicate HoldsPermit(pc: Pc) {
    pc.LoginHandler? || pc.LogoutHandler?
  }

  /** The attempt a caller has joined and not left. */
  function WaitsOn(pc: Pc): Option<nat> {
    match pc
    case TokenWaiting(a, _, _) => Some(a)
    case LoopJoined(_, a) => Some(a)
    case _ => None
  }

  /** The attempt a goroutine runs. */
  function Runs(pc: Pc): Option<nat> {
    match pc
    case Granting(a) => Some(a)
    case GrantFailed(a, _) => Some(a)
    case GrantOk(a, _) => Some(a)
    case Refusing(a) => Some(a)
    case RefusalLoading(a) => Some(a)
    case RefusalInstalling(a, _) => Some(a)
    case Finishing(a, _) => Some(a)
    case Completing(a) => Some(a)
    case Saving(who, _) => CommitsFor(who)
    case Recording(who, _, _) => CommitsFor(who)
    case Queueing(who, _) => CommitsFor(who)
    case _ => None
  }

  function CommitsFor(who: Committer): Option<nat> {
    match who
    case ByLogin(_) => None
    case ByRefresh(a) => Some(a)
    case ByRefusal(a) => Some(a)
  }

  function RefreshClaimOf(pc: Pc): Option<Claim> {
    match pc
    case LoopTrying(claim) => Some(claim)
    case LoopJoined(claim, _) => Some(claim)
    case LoopDone(claim, _) => Some(claim)
    case _ => None
  }

  datatype RetryClaim = RetryClaim(revision: nat, id: nat)

  function RetryClaimOf(pc: Pc): Option<RetryClaim> {
    match pc
    case PersistClaimed(r, id) => Some(RetryClaim(r, id))
    case PersistSaving(r, id) => Some(RetryClaim(r, id))
    case PersistUpdating(r, id, _) => Some(RetryClaim(r, id))
    case _ => None
  }

  datatype Snapshot = Snapshot(state: TokenState, revision: nat)

  /** The generation a thread read earlier and acts on. */
  function SnapshotOf(pc: Pc): Option<Snapshot> {
    match pc
    case TokenRead(s, r, _) => Some(Snapshot(s, r))
    case TokenTrying(s, r) => Some(Snapshot(s, r))
    case TokenWaiting(_, s, r) => Some(Snapshot(s, r))
    case TokenBlocking(s, r, _) => Some(Snapshot(s, r))
    case LoopTrying(claim) => Some(Snapshot(claim.state, claim.revision))
    case LoopJoined(claim, _) => Some(Snapshot(claim.state, claim.revision))
    case LoopDone(claim, _) => Some(Snapshot(claim.state, claim.revision))
    case _ => None
  }
}
