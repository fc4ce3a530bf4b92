/**
 Generations of token state, and the claims keyed to them.
*/
module Generations {
  import opened Basics
  import opened ClientCore
  import opened Errors
  import opened Locks
  import opened Places
  import opened Protocol
  import opened StageTimes
  import opened Tokens
  import CoreEvents

  /** Generations are recorded, and everything keyed by a revision is current. */
  ghost predicate Keyed(sh: Shared) {
    && |sh.ghosts.history| == sh.core.revision + 1
    && sh.ghosts.history[sh.core.revision] == sh.core.state
    && (sh.core.schedule.valid ==> sh.core.schedule.revision == sh.core.revision)
    && (sh.core.retry.valid ==> sh.core.retry.revision == sh.core.revision)
  }

  /** A claim is set exactly while some thread holds it. */
  ghost predicate Claims(sh: Shared) {
    && sh.core.schedule.claimID <= sh.core.refreshClaimSeq
    && sh.core.retry.claimID <= sh.core.persistenceClaimSeq
    && (sh.ghosts.refreshHolder.Some? <==>
          sh.core.schedule.valid && sh.core.schedule.claimID != 0)
    && (sh.ghosts.retryHolder.Some? <==> sh.core.retry.valid && sh.core.retry.claimID != 0)
  }

  ghost predicate Shape(sh: Shared) {
    Keyed(sh) && Claims(sh) && sh.clock > 0
  }

  ghost predicate SnapshotFits(sh: Shared, pc: Pc) {
    SnapshotOf(pc).Some? ==>
      && SnapshotOf(pc).value.revision < |sh.ghosts.history|
      && SnapshotOf(pc).value.state == sh.ghosts.history[SnapshotOf(pc).value.revision]
      && (!pc.TokenRead? ==> SnapshotOf(pc).value.state.refreshToken != "")
  }

  ghost predicate RefreshClaimFits(sh: Shared, t: Thread, pc: Pc) {
    && (RefreshClaimOf(pc).Some? ==> 0 < RefreshClaimOf(pc).value.id <= sh.core.refreshClaimSeq)
    && (sh.ghosts.refreshHolder == Some(t) <==>
          RefreshClaimOf(pc).Some? && HoldsRefreshClaim(sh.core, RefreshClaimOf(pc).value))
  }

  ghost predicate RetryClaimFits(sh: Shared, t: Thread, pc: Pc) {
    && (RetryClaimOf(pc).Some? ==>
          && 0 < RetryClaimOf(pc).value.id <= sh.core.persistenceClaimSeq
          && RetryClaimOf(pc).value.revision <= sh.core.revision)
    && (sh.ghosts.retryHolder == Some(t) <==>
          && RetryClaimOf(pc).Some?
          && HoldsRetryClaim(sh.core, RetryClaimOf(pc).value.revision, RetryClaimOf(pc).value.id))
  }

  /** While a fresh generation is being saved, it is current and not yet dirty. */
  ghost predicate CommitFits(sh: Shared, pc: Pc) {
    && (pc.Saving? || pc.Recording? ==> pc.revision == sh.core.revision && !sh.core.retry.valid)
    && (pc.Queueing? || pc.LogoutDeleting? || pc.LogoutQueueing? ==>
          pc.revision == sh.core.revision)
  }

  ghost predicate Fits(sh: Shared, t: Thread, pc: Pc) {
    && CommitFits(sh, pc)
    && SnapshotFits(sh, pc)
    && RefreshClaimFits(sh, t, pc)
    && RetryClaimFits(sh, t, pc)
  }

  ghost predicate RelyHistory(sh: Shared, sh': Shared) {
    && sh.core.revision <= sh'.core.revision
    && sh.ghosts.history <= sh'.ghosts.history
  }

  /** Others leave my refresh claim alone unless they move to a newer generation,
      and a claim they set is a new one. */
  ghost predicate RelyRefreshClaim(t: Thread, sh: Shared, sh': Shared) {
    && sh.core.refreshClaimSeq <= sh'.core.refreshClaimSeq
    && (sh'.ghosts.refreshHolder == Some(t) <==>
          sh.ghosts.refreshHolder == Some(t) && sh'.core.revision == sh.core.revision)
    && (sh'.core.revision == sh.core.revision ==>
          || (sh'.core.schedule.valid == sh.core.schedule.valid
              && sh'.core.schedule.claimID == sh.core.schedule.claimID)
          || (sh.ghosts.refreshHolder != Some(t)
              && (sh'.core.schedule.claimID == 0
                  || sh.core.refreshClaimSeq < sh'.core.schedule.claimID)))
  }

  /** My persistence claim survives unless its dirty mark is dropped. */
  ghost predicate RelyRetryClaim(t: Thread, sh: Shared, sh': Shared) {
    && sh.core.persistenceClaimSeq <= sh'.core.persistenceClaimSeq
    && (sh'.ghosts.retryHolder == Some(t) ==> sh.ghosts.retryHolder == Some(t))
    && (if sh'.ghosts.retryHolder == Some(t) then
          sh'.core.retry == sh.core.retry && sh'.core.revision == sh.core.revision
        else if sh.ghosts.retryHolder == Some(t) then !sh'.core.retry.valid
        else
          || !sh'.core.retry.valid
          || sh'.core.retry.claimID == 0
          || sh.core.persistenceClaimSeq < sh'.core.retry.claimID
          || (sh.core.retry.valid
              && sh'.core.retry.claimID == sh.core.retry.claimID
              && sh'.core.revision == sh.core.revision))
  }

  /** Whoever holds stateCommitMu owns the generation and the store. */
  ghost predicate RelyCommit(t: Thread, sh: Shared, sh': Shared) {
    sh.commitMu == Some(t) ==>
      && sh'.core.state == sh.core.state
      && sh'.core.revision == sh.core.revision
      && sh'.core.restoreBlocked == sh.core.restoreBlocked
      && sh'.core.retry.valid == sh.core.retry.valid
      && sh'.store == sh.store
  }

  ghost predicate Rely(t: Thread, sh: Shared, sh': Shared) {
    && RelyCommit(t, sh, sh')
    && RelyHistory(sh, sh')
    && RelyRefreshClaim(t, sh, sh')
    && RelyRetryClaim(t, sh, sh')
  }

  lemma RelyKeepsFits(t: Thread, pc: Pc, sh: Shared, sh': Shared)
    requires LocksFit(sh, t, pc) && Shape(sh) && Shape(sh')
    requires Fits(sh, t, pc) && Rely(t, sh, sh')
    ensures Fits(sh', t, pc)
  {}

  ghost predicate Sound(sh: Shared, t: Thread, pc: Pc) {
    LocksFit(sh, t, pc) && Shape(sh) && Fits(sh, t, pc)
  }

  ghost predicate Keeps(sh: Shared, t: Thread, sh': Shared, pc': Pc) {
    && Shape(sh')
    && Fits(sh', t, pc')
    && forall u :: u != t ==> Rely(u, sh, sh')
  }

  /** A step that leaves generations, claims and the store alone. */
  ghost predicate SameGeneration(sh: Shared, sh': Shared) {
    && sh'.core == sh.core
    && sh'.store == sh.store
    && sh'.clock >= sh.clock
    && sh'.ghosts.history == sh.ghosts.history
    && sh'.ghosts.refreshHolder == sh.ghosts.refreshHolder
    && sh'.ghosts.retryHolder == sh.ghosts.retryHolder
  }

  lemma SameRely(sh: Shared, sh': Shared)
    requires SameGeneration(sh, sh')
    ensures forall u :: Rely(u, sh, sh')
  {}

  lemma SameFits(sh: Shared, t: Thread, pc: Pc, sh': Shared, pc': Pc)
    requires Sound(sh, t, pc)
    requires SameGeneration(sh, sh')
    requires RefreshClaimOf(pc') == RefreshClaimOf(pc) && RetryClaimOf(pc') == RetryClaimOf(pc)
    requires SnapshotFits(sh, pc') && CommitFits(sh, pc')
    ensures Shape(sh') && Fits(sh', t, pc')
  {
    hide LocksFit;
  }

  lemma KeepsFrom(sh: Shared, t: Thread, sh': Shared, pc': Pc)
    requires Shape(sh') && Fits(sh', t, pc') && forall u :: Rely(u, sh, sh')
    ensures Keeps(sh, t, sh', pc')
  {
    hide Shape, Fits, Rely;
  }

  lemma SameKeeps(sh: Shared, t: Thread, pc: Pc, sh': Shared, pc': Pc)
    requires Sound(sh, t, pc)
    requires SameGeneration(sh, sh')
    requires RefreshClaimOf(pc') == RefreshClaimOf(pc) && RetryClaimOf(pc') == RetryClaimOf(pc)
    requires SnapshotFits(sh, pc') && CommitFits(sh, pc')
    ensures Keeps(sh, t, sh', pc')
  {
    hide *;
    SameRely(sh, sh');
    SameFits(sh, t, pc, sh', pc');
    KeepsFrom(sh, t, sh', pc');
  }

  lemma TickKeeps(sh: Shared, t: Thread, pc: Pc, sh': Shared, pc': Pc)
    requires Sound(sh, t, pc)
    requires sh' == sh.(clock := sh'.clock) && sh'.clock >= sh.clock && pc' == pc
    ensures Keeps(sh, t, sh', pc')
  {
    SameKeeps(sh, t, pc, sh', pc');
  }

  /** A step that edits the schedule without touching a claim. */
  ghost predicate Reschedules(c: Core, c': Core) {
    && c' == c.(schedule := c'.schedule, wake := c'.wake)
    && c'.schedule.valid
    && c'.schedule.revision == c.revision
    && c'.schedule.claimID == CurrentSchedule(c).claimID
  }

  lemma RescheduleRely(sh: Shared, sh': Shared)
    requires Shape(sh) && Reschedules(sh.core, sh'.core)
    requires SameGeneration(sh, sh'.(core := sh.core))
    ensures forall u :: Rely(u, sh, sh')
  {}

  lemma SoundShape(sh: Shared, t: Thread, pc: Pc)
    requires Sound(sh, t, pc)
    ensures Shape(sh)
  {}

  lemma RescheduleFits(sh: Shared, t: Thread, pc: Pc, sh': Shared, pc': Pc)
    requires Sound(sh, t, pc)
    requires Reschedules(sh.core, sh'.core)
    requires SameGeneration(sh, sh'.(core := sh.core))
    requires RefreshClaimOf(pc') == RefreshClaimOf(pc) && RetryClaimOf(pc') == RetryClaimOf(pc)
    requires SnapshotFits(sh, pc') && CommitFits(sh, pc')
    ensures Shape(sh') && Fits(sh', t, pc')
  {
    hide LocksFit;
  }

  lemma RescheduleKeeps(sh: Shared, t: Thread, pc: Pc, sh': Shared, pc': Pc)
    requires Sound(sh, t, pc)
    requires Reschedules(sh.core, sh'.core)
    requires SameGeneration(sh, sh'.(core := sh.core))
    requires RefreshClaimOf(pc') == RefreshClaimOf(pc) && RetryClaimOf(pc') == RetryClaimOf(pc)
    requires SnapshotFits(sh, pc') && CommitFits(sh, pc')
    ensures Keeps(sh, t, sh', pc')
  {
    hide *;
    RescheduleRely(sh, sh') by { hide *; SoundShape(sh, t, pc); }
    RescheduleFits(sh, t, pc, sh', pc');
    KeepsFrom(sh, t, sh', pc');
  }

  /** A step that installs a generation and gives up any claim. */
  ghost predicate NewGeneration(sh: Shared, sh': Shared) {
    && sh'.core == Advance(sh.core, sh'.core.state)
    && sh'.store == sh.store
    && sh'.clock >= sh.clock
    && sh'.ghosts.history == sh.ghosts.history + [sh'.core.state]
    && sh'.ghosts.refreshHolder == None
    && sh'.ghosts.retryHolder == None
  }

  lemma InstallKeeps(sh: Shared, t: Thread, pc: Pc, sh': Shared, pc': Pc)
    requires Sound(sh, t, pc)
    requires sh.commitMu.None? || sh.commitMu == Some(t)
    requires NewGeneration(sh, sh')
    requires RefreshClaimOf(pc').None? && RetryClaimOf(pc').None?
    requires SnapshotOf(pc').None? && CommitFits(sh', pc')
    ensures Keeps(sh, t, sh', pc')
  {}

  /** Joining and leaving an attempt touches nothing but attempts. */
  lemma JoinEffect(sh: Shared, t: Thread, pc: Pc, act: Action, sh': Shared, pc': Pc)
    requires DoJoin(sh, t, pc, act) == Some((sh', pc'))
    ensures sh'.core == sh.core && sh'.store == sh.store && sh'.clock == sh.clock
    ensures sh'.ghosts == sh.ghosts.(starts := sh'.ghosts.starts, startCount := sh'.ghosts.startCount)
  {
    hide Admit, TryBegin;
    if pc.TokenTrying? { CoreEvents.TryBeginTouches(sh, t, pc.snapshot, pc.revision, 0); }
    if pc.LoopTrying? {
      CoreEvents.TryBeginTouches(sh, t, pc.claim.state, pc.claim.revision, pc.claim.id);
    }
  }

  lemma JoinPlaces(sh: Shared, t: Thread, pc: Pc, act: Action, sh': Shared, pc': Pc)
    requires DoJoin(sh, t, pc, act) == Some((sh', pc'))
    ensures RefreshClaimOf(pc') == RefreshClaimOf(pc) && RetryClaimOf(pc') == RetryClaimOf(pc)
    ensures SnapshotOf(pc').Some? ==> SnapshotOf(pc') == SnapshotOf(pc) && !pc.TokenRead?
    ensures !pc'.Saving? && !pc'.Recording? && !pc'.Queueing?
  {}

  /** What a supervisor pass does to the schedule. */
  lemma NextRefreshEffect(c: Core, now: Time)
    ensures
      var (c', next) := NextRefresh(c, now);
      if next.Attempt? then
        && CurrentSchedule(c).claimID == 0
        && next.claim == Claim(c.revision, c.state, CurrentSchedule(c).nextStage, c.refreshClaimSeq + 1)
        && c.state.refreshToken != ""
        && c' == Signal(c.(schedule := CurrentSchedule(c).(claimID := c.refreshClaimSeq + 1),
                           refreshClaimSeq := c.refreshClaimSeq + 1))
      else Reschedules(c, c')
  {}

  lemma ClaimKeeps(sh: Shared, t: Thread, pc: Pc, sh': Shared, pc': Pc)
    requires Sound(sh, t, pc)
    requires pc.LoopTop? && pc'.LoopTrying?
    requires CurrentSchedule(sh.core).claimID == 0 && sh.core.state.refreshToken != ""
    requires pc'.claim.revision == sh.core.revision && pc'.claim.state == sh.core.state
    requires pc'.claim.id == sh.core.refreshClaimSeq + 1
    requires sh'.core == Signal(sh.core.(
               schedule := CurrentSchedule(sh.core).(claimID := pc'.claim.id),
               refreshClaimSeq := pc'.claim.id))
    requires sh' == sh.(core := sh'.core, ghosts := sh.ghosts.(refreshHolder := Some(t)))
    ensures Keeps(sh, t, sh', pc')
  {}

  lemma NextLoopKeeps(sh: Shared, t: Thread, pc: Pc, now: Time, sh': Shared, pc': Pc)
    requires Sound(sh, t, pc)
    requires DoLoop(sh, t, pc, NextLoopAction(now)) == Some((sh', pc'))
    ensures Keeps(sh, t, sh', pc')
  {
    NextRefreshEffect(sh.core, now);
    if pc'.LoopTrying? {
      ClaimKeeps(sh, t, pc, sh', pc');
    } else {
      RescheduleKeeps(sh, t, pc, sh', pc');
    }
  }

  lemma KeepsForOthers(sh: Shared, t: Thread, sh': Shared, pc': Pc)
    requires Shape(sh') && Fits(sh', t, pc') && forall u :: u != t ==> Rely(u, sh, sh')
    ensures Keeps(sh, t, sh', pc')
  {
    hide Shape, Fits, Rely;
  }

  lemma FinishLoopFits(sh: Shared, t: Thread, pc: Pc, now: Time, sh': Shared, pc': Pc)
    requires Sound(sh, t, pc)
    requires DoLoop(sh, t, pc, FinishLoopAttempt(now)) == Some((sh', pc'))
    ensures Shape(sh') && Fits(sh', t, pc')
  {}

  lemma FinishLoopRely(sh: Shared, t: Thread, pc: Pc, now: Time, sh': Shared, pc': Pc)
    requires Sound(sh, t, pc)
    requires DoLoop(sh, t, pc, FinishLoopAttempt(now)) == Some((sh', pc'))
    ensures forall u :: u != t ==> Rely(u, sh, sh')
  {
    hide LocksFit, SnapshotFits, CommitFits, RetryClaimFits;
  }

  lemma FinishLoopKeeps(sh: Shared, t: Thread, pc: Pc, now: Time, sh': Shared, pc': Pc)
    requires Sound(sh, t, pc)
    requires DoLoop(sh, t, pc, FinishLoopAttempt(now)) == Some((sh', pc'))
    ensures Keeps(sh, t, sh', pc')
  {
    hide *;
    FinishLoopFits(sh, t, pc, now, sh', pc');
    FinishLoopRely(sh, t, pc, now, sh', pc');
    KeepsForOthers(sh, t, sh', pc');
  }

  lemma NextPersistFits(sh: Shared, t: Thread, pc: Pc, now: Time, sh': Shared, pc': Pc)
    requires Sound(sh, t, pc)
    requires DoPersist(sh, t, pc, NextPersistAction(now)) == Some((sh', pc'))
    ensures Shape(sh') && Fits(sh', t, pc')
  {}

  lemma NextPersistRely(sh: Shared, t: Thread, pc: Pc, now: Time, sh': Shared, pc': Pc)
    requires Sound(sh, t, pc)
    requires DoPersist(sh, t, pc, NextPersistAction(now)) == Some((sh', pc'))
    ensures forall u :: u != t ==> Rely(u, sh, sh')
  {}

  lemma NextPersistKeeps(sh: Shared, t: Thread, pc: Pc, now: Time, sh': Shared, pc': Pc)
    requires Sound(sh, t, pc)
    requires DoPersist(sh, t, pc, NextPersistAction(now)) == Some((sh', pc'))
    ensures Keeps(sh, t, sh', pc')
  {
    hide *;
    NextPersistFits(sh, t, pc, now, sh', pc');
    NextPersistRely(sh, t, pc, now, sh', pc');
    KeepsForOthers(sh, t, sh', pc');
  }

  lemma RetryLeavesRefresh(sh: Shared, t: Thread, pc: Pc, now: Time, sh': Shared, pc': Pc)
    requires Sound(sh, t, pc)
    requires DoPersist(sh, t, pc, FinishRetrySave(now)) == Some((sh', pc'))
    ensures SnapshotFits(sh', pc') && RefreshClaimFits(sh', t, pc')
    ensures forall u :: RelyRefreshClaim(u, sh, sh')
  {
    hide LocksFit, RetryClaimFits, CommitFits, RetryDelay;
  }

  lemma FinishRetryKeeps(sh: Shared, t: Thread, pc: Pc, now: Time, sh': Shared, pc': Pc)
    requires Sound(sh, t, pc)
    requires DoPersist(sh, t, pc, FinishRetrySave(now)) == Some((sh', pc'))
    ensures Keeps(sh, t, sh', pc')
  {
    hide RefreshClaimFits, SnapshotFits, RelyRefreshClaim;
    RetryLeavesRefresh(sh, t, pc, now, sh', pc');
  }


  lemma LoginPlaces(sh: Shared, t: Thread, pc: Pc, act: Action, sh': Shared, pc': Pc)
    requires Sound(sh, t, pc) && DoLogin(sh, t, pc, act) == Some((sh', pc'))
    ensures RefreshClaimOf(pc').None? && RetryClaimOf(pc').None? && SnapshotOf(pc').None?
    ensures RefreshClaimOf(pc).None? && RetryClaimOf(pc).None?
    ensures CommitFits(sh', pc')
    ensures if act.InstallLogin? && sh'.core != sh.core then
              sh.commitMu.None? && NewGeneration(sh, sh')
            else SameGeneration(sh, sh') && CommitFits(sh, pc') && SnapshotFits(sh, pc')
  {
    hide LocksFit, Shape, RefreshClaimFits, RetryClaimFits;
  }

  lemma LoginKeeps(sh: Shared, t: Thread, pc: Pc, act: Action, sh': Shared, pc': Pc)
    requires Sound(sh, t, pc) && DoLogin(sh, t, pc, act) == Some((sh', pc'))
    ensures Keeps(sh, t, sh', pc')
  {
    LoginPlaces(sh, t, pc, act, sh', pc');
    hide *;
    if act.InstallLogin? && sh'.core != sh.core {
      InstallKeeps(sh, t, pc, sh', pc');
    } else {
      SameKeeps(sh, t, pc, sh', pc');
    }
  }

  lemma LogoutKeeps(sh: Shared, t: Thread, pc: Pc, act: Action, sh': Shared, pc': Pc)
    requires Sound(sh, t, pc) && DoLogout(sh, t, pc, act) == Some((sh', pc'))
    ensures Keeps(sh, t, sh', pc')
  {}

  lemma CommitKeeps(sh: Shared, t: Thread, pc: Pc, act: Action, sh': Shared, pc': Pc)
    requires Sound(sh, t, pc) && DoCommit(sh, t, pc, act) == Some((sh', pc'))
    ensures Keeps(sh, t, sh', pc')
  {}

  lemma RestoreKeeps(sh: Shared, t: Thread, pc: Pc, act: Action, sh': Shared, pc': Pc)
    requires Sound(sh, t, pc) && DoRestore(sh, t, pc, act) == Some((sh', pc'))
    ensures Keeps(sh, t, sh', pc')
  {
    if act.InstallRestored? && sh.core.state != pc.loaded {
      InstallKeeps(sh, t, pc, sh', pc');
    } else {
      SameKeeps(sh, t, pc, sh', pc');
    }
    hide Keeps, Fits, Shape;
  }

  lemma TokenSections(sh: Shared, t: Thread, pc: Pc, act: Action, sh': Shared, pc': Pc)
    requires DoToken(sh, t, pc, act) == Some((sh', pc'))
    ensures sh'.core == sh.core || Reschedules(sh.core, sh'.core)
    ensures SameGeneration(sh, sh'.(core := sh.core))
    ensures sh'.core == sh.core ==> SameGeneration(sh, sh')
  {}

  lemma TokenPlaces(sh: Shared, t: Thread, pc: Pc, act: Action, sh': Shared, pc': Pc)
    requires Keyed(sh) && SnapshotFits(sh, pc) && DoToken(sh, t, pc, act) == Some((sh', pc'))
    ensures RefreshClaimOf(pc') == RefreshClaimOf(pc) && RetryClaimOf(pc') == RetryClaimOf(pc)
    ensures SnapshotFits(sh, pc') && CommitFits(sh, pc')
  {
    hide BlockIntegrity, BlockPermanent;
  }

  lemma SoundReading(sh: Shared, t: Thread, pc: Pc)
    requires Sound(sh, t, pc)
    ensures Keyed(sh) && SnapshotFits(sh, pc)
  {}

  lemma TokenKeeps(sh: Shared, t: Thread, pc: Pc, act: Action, sh': Shared, pc': Pc)
    requires Sound(sh, t, pc) && DoToken(sh, t, pc, act) == Some((sh', pc'))
    ensures Keeps(sh, t, sh', pc')
  {
    hide *;
    SoundReading(sh, t, pc);
    TokenSections(sh, t, pc, act, sh', pc');
    TokenPlaces(sh, t, pc, act, sh', pc');
    if sh'.core == sh.core {
      SameKeeps(sh, t, pc, sh', pc');
    } else {
      RescheduleKeeps(sh, t, pc, sh', pc');
    }
  }

  lemma JoinKeeps(sh: Shared, t: Thread, pc: Pc, act: Action, sh': Shared, pc': Pc)
    requires Sound(sh, t, pc) && DoJoin(sh, t, pc, act) == Some((sh', pc'))
    ensures Keeps(sh, t, sh', pc')
  {
    JoinEffect(sh, t, pc, act, sh', pc');
    JoinPlaces(sh, t, pc, act, sh', pc');
    SameKeeps(sh, t, pc, sh', pc');
  }

  lemma GrantPlaces(sh: Shared, t: Thread, pc: Pc, act: Action, sh': Shared, pc': Pc)
    requires Sound(sh, t, pc) && DoGrant(sh, t, pc, act) == Some((sh', pc'))
    ensures RefreshClaimOf(pc').None? && RetryClaimOf(pc').None? && SnapshotOf(pc').None?
    ensures RefreshClaimOf(pc).None? && RetryClaimOf(pc).None?
    ensures CommitFits(sh', pc') && SnapshotFits(sh, pc')
    ensures if act.CommitRefresh? && sh'.core != sh.core then sh.commitMu.None? && NewGeneration(sh, sh')
            else SameGeneration(sh, sh') && CommitFits(sh, pc')
  {
    hide RefreshedState, LocksFit, Shape, RefreshClaimFits, RetryClaimFits;
  }

  lemma GrantKeeps(sh: Shared, t: Thread, pc: Pc, act: Action, sh': Shared, pc': Pc)
    requires Sound(sh, t, pc) && DoGrant(sh, t, pc, act) == Some((sh', pc'))
    ensures Keeps(sh, t, sh', pc')
  {
    GrantPlaces(sh, t, pc, act, sh', pc');
    hide *;
    if act.CommitRefresh? && sh'.core != sh.core {
      InstallKeeps(sh, t, pc, sh', pc');
    } else {
      SameKeeps(sh, t, pc, sh', pc');
    }
  }

  lemma RefusalKeeps(sh: Shared, t: Thread, pc: Pc, act: Action, sh': Shared, pc': Pc)
    requires Sound(sh, t, pc) && DoRefusal(sh, t, pc, act) == Some((sh', pc'))
    ensures Keeps(sh, t, sh', pc')
  {
    if act.InstallRefusal? && sh'.core != sh.core {
      InstallKeeps(sh, t, pc, sh', pc');
    } else {
      SameKeeps(sh, t, pc, sh', pc');
    }
  }

  lemma CloseKeeps(sh: Shared, t: Thread, pc: Pc, act: Action, sh': Shared, pc': Pc)
    requires Sound(sh, t, pc) && DoClose(sh, t, pc, act) == Some((sh', pc'))
    ensures Keeps(sh, t, sh', pc')
  {
    if sh'.core == sh.core {
      SameKeeps(sh, t, pc, sh', pc');
    } else {
      RescheduleKeeps(sh, t, pc, sh', pc');
    }
  }

  lemma LoopSections(sh: Shared, t: Thread, pc: Pc, act: Action, sh': Shared, pc': Pc)
    requires DoLoop(sh, t, pc, act) == Some((sh', pc'))
    requires !act.NextLoopAction? && !act.FinishLoopAttempt?
    ensures SameGeneration(sh, sh')
  {}

  lemma LoopPlaces(sh: Shared, t: Thread, pc: Pc, act: Action, sh': Shared, pc': Pc)
    requires DoLoop(sh, t, pc, act) == Some((sh', pc'))
    requires !act.NextLoopAction? && !act.FinishLoopAttempt?
    ensures RefreshClaimOf(pc') == RefreshClaimOf(pc) && RetryClaimOf(pc') == RetryClaimOf(pc)
    ensures SnapshotFits(sh, pc') && CommitFits(sh, pc')
  {
    hide NextRefresh, FinishClaim;
  }

  lemma LoopKeeps(sh: Shared, t: Thread, pc: Pc, act: Action, sh': Shared, pc': Pc)
    requires Sound(sh, t, pc) && DoLoop(sh, t, pc, act) == Some((sh', pc'))
    ensures Keeps(sh, t, sh', pc')
  {
    hide *;
    if act.NextLoopAction? {
      NextLoopKeeps(sh, t, pc, act.now, sh', pc');
    } else if act.FinishLoopAttempt? {
      FinishLoopKeeps(sh, t, pc, act.now, sh', pc');
    } else {
      LoopSections(sh, t, pc, act, sh', pc');
      LoopPlaces(sh, t, pc, act, sh', pc');
      SameKeeps(sh, t, pc, sh', pc');
    }
  }

  lemma LockedSame(sh: Shared, t: Thread, pc: Pc, act: Action, sh': Shared, pc': Pc)
    requires Sound(sh, t, pc) && act.LockForRetry? && sh'.core == sh.core
    requires DoPersist(sh, t, pc, act) == Some((sh', pc'))
    ensures Keeps(sh, t, sh', pc')
  {}

  lemma AbandonKeeps(sh: Shared, t: Thread, pc: Pc, act: Action, sh': Shared, pc': Pc)
    requires Sound(sh, t, pc) && act.LockForRetry? && sh'.core != sh.core
    requires DoPersist(sh, t, pc, act) == Some((sh', pc'))
    ensures Keeps(sh, t, sh', pc')
  {}

  lemma LockForRetryKeeps(sh: Shared, t: Thread, pc: Pc, act: Action, sh': Shared, pc': Pc)
    requires Sound(sh, t, pc) && act.LockForRetry?
    requires DoPersist(sh, t, pc, act) == Some((sh', pc'))
    ensures Keeps(sh, t, sh', pc')
  {
    if sh'.core == sh.core {
      LockedSame(sh, t, pc, act, sh', pc') by { hide *; }
    } else {
      AbandonKeeps(sh, t, pc, act, sh', pc') by { hide *; }
    }
    hide *;
  }

  lemma RetryKeeps(sh: Shared, t: Thread, pc: Pc, act: Action, sh': Shared, pc': Pc)
    requires Sound(sh, t, pc) && DoPersist(sh, t, pc, act) == Some((sh', pc'))
    requires !act.NextPersistAction? && !act.FinishRetrySave?
    ensures Keeps(sh, t, sh', pc')
  {
    match act
    case StartPersistLoop => SameKeeps(sh, t, pc, sh', pc');
    case LockForRetry(_) => LockForRetryKeeps(sh, t, pc, act, sh', pc');
    case RetrySaveReturns(_, _) =>
  }

  lemma PersistKeeps(sh: Shared, t: Thread, pc: Pc, act: Action, sh': Shared, pc': Pc)
    requires Sound(sh, t, pc) && DoPersist(sh, t, pc, act) == Some((sh', pc'))
    ensures Keeps(sh, t, sh', pc')
  {
    hide *;
    if act.NextPersistAction? {
      NextPersistKeeps(sh, t, pc, act.now, sh', pc');
    } else if act.FinishRetrySave? {
      FinishRetryKeeps(sh, t, pc, act.now, sh', pc');
    } else {
      RetryKeeps(sh, t, pc, act, sh', pc');
    }
  }

  lemma InitFits(sh: Shared, t: Thread, pc: Pc, act: Action, sh': Shared, pc': Pc)
    requires Sound(sh, t, pc) && DoInit(sh, t, pc, act) == Some((sh', pc'))
    ensures Shape(sh') && Fits(sh', t, pc')
  {
    hide LocksFit;
  }

  lemma InitRely(sh: Shared, t: Thread, pc: Pc, act: Action, sh': Shared, pc': Pc)
    requires DoInit(sh, t, pc, act) == Some((sh', pc'))
    ensures forall u :: Rely(u, sh, sh')
  {}

  lemma InitKeeps(sh: Shared, t: Thread, pc: Pc, act: Action, sh': Shared, pc': Pc)
    requires Sound(sh, t, pc) && DoInit(sh, t, pc, act) == Some((sh', pc'))
    ensures Keeps(sh, t, sh', pc')
  {
    hide *;
    InitFits(sh, t, pc, act, sh', pc');
    InitRely(sh, t, pc, act, sh', pc');
    KeepsForOthers(sh, t, sh', pc');
  }
}
