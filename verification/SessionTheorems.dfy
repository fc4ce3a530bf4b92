/**
 Main results about sessions: durability, Logout as a security boundary, and the
 order of lifecycle operations, events and Init commits -- for every run.
*/
module SessionTheorems {
  import opened Base
  import opened Basics
  import opened ClientCore
  import opened Commits
  import opened CoreEvents
  import Attempts
  import opened Places
  import opened Protocol
  import opened Tokens
  import Events
  import G = Generations
  import Retries

  function At(r: Run, i: nat): Shared
    requires i < |r.states|
  {
    r.states[i].shared
  }

  function ActorPc(r: Run, i: nat): Pc
    requires i < |r.states| && i < |r.labels|
  {
    PcOf(r.states[i], r.labels[i].thread)
  }

  // ----- durability -------------------------------------------------------------

  /** Whenever no commit is in progress and this Client has installed a state, the
      store holds that state, or a retry is pending for exactly the current revision,
      or the Client is logged out and never reads the store again. Any pattern of
      failing writes with unknown outcome is covered. */
  lemma Durability(r: Run, i: nat)
    requires IsRun(r) && i < |r.states|
    requires At(r, i).commitMu.None? && At(r, i).ghosts.installed
    ensures
      || At(r, i).store == At(r, i).core.state
      || (At(r, i).core.retry.valid && At(r, i).core.retry.revision == At(r, i).core.revision)
      || (At(r, i).core.restoreBlocked && At(r, i).core.state == ZERO)
  {
    RunCommits(r, i);
  }

  /** Once this Client has installed a state, what a Load gives RestoreSession to install is
      the state in memory, so that RestoreSession changes nothing. */
  lemma RestoreKeepsMemory(r: Run, i: nat, t: Thread)
    requires IsRun(r) && i < |r.states|
    requires At(r, i).ghosts.installed && PcOf(r.states[i], t).RestoreInstalling?
    ensures PcOf(r.states[i], t).loaded == At(r, i).core.state
    ensures i < |r.labels| && r.labels[i] == Label(t, InstallRestored) ==>
              At(r, i + 1).core == At(r, i).core
  {
    RunCommits(r, i);
    assert CommitFits(At(r, i), t, PcOf(r.states[i], t));
    if i < |r.labels| && r.labels[i] == Label(t, InstallRestored) {
      assert IsStep(r, i);
      RestoresNothing(At(r, i), t, PcOf(r.states[i], t), At(r, i + 1), PcOf(r.states[i + 1], t));
    }
    hide Do, Inv, Initial, CommitInv, OpFits;
  }

  lemma RestoresNothing(sh: Shared, t: Thread, pc: Pc, sh': Shared, pc': Pc)
    requires Do(sh, t, pc, InstallRestored) == Some((sh', pc'))
    requires pc.RestoreInstalling? && pc.loaded == sh.core.state
    ensures sh'.core == sh.core
  {
    EveryActionIsGrouped(InstallRestored);
    Dispatch(sh, t, pc, InstallRestored);
    hide Do, GroupOf;
  }

  // ----- no resurrection --------------------------------------------------------

  predicate IsSave(act: Action) {
    act.SaveReturns? || act.RetrySaveReturns?
  }

  /** Step `k` commits a Login that was admitted after operation `id`. */
  ghost predicate NewerLoginCommits(r: Run, k: nat, id: nat)
    requires |r.states| == |r.labels| + 1 && k < |r.labels|
  {
    && r.labels[k].action.InstallLogin?
    && ActorPc(r, k).LoginLocked?
    && ActorPc(r, k).op.id > id
    && At(r, k + 1).core.revision > At(r, k).core.revision
  }

  /** While the tombstone stands, one step of anybody leaves it standing, writes no
      tokens, or is the commit of a Login admitted later. */
  lemma TombstoneStep(s: System, t: Thread, act: Action, s': System)
    requires CommitsHold(s) && CommitsHold(s') && s.shared.core.restoreBlocked
    requires StepTo(s, t, act) == Some(s')
    ensures !IsSave(act)
    ensures
      || (s'.shared.core.restoreBlocked && s'.shared.ghosts.tombstone >= s.shared.ghosts.tombstone)
      || (&& act.InstallLogin?
          && PcOf(s, t).LoginLocked?
          && PcOf(s, t).op.id > s.shared.ghosts.tombstone
          && s'.shared.core.revision > s.shared.core.revision)
  {
    var sh, sh', pc, pc' := s.shared, s'.shared, PcOf(s, t), PcOf(s', t);
    assert Local(sh, t, pc) && CommitFits(sh, t, pc);
    TombstoneActor(sh, t, pc, act, sh', pc');
  }

  lemma NoSaveUnderTombstone(sh: Shared, t: Thread, pc: Pc, act: Action, sh': Shared, pc': Pc)
    requires Tombstone(sh) && StoreFits(sh, pc) && sh.core.restoreBlocked
    requires Do(sh, t, pc, act) == Some((sh', pc'))
    ensures !IsSave(act)
  {
    hide DoLogin, DoLogout, DoRestore, DoToken, DoJoin, DoGrant, DoRefusal, DoClose, DoLoop, DoInit;
  }

  /** A generation that replaces a logged-out one comes from a newer Login. */
  lemma InstallUnderTombstone(sh: Shared, t: Thread, pc: Pc, act: Action, sh': Shared, pc': Pc)
    requires Before(sh, t, pc) && sh.core.restoreBlocked
    requires Do(sh, t, pc, act) == Some((sh', pc')) && EffectOf(sh, pc, act).Installed?
    ensures act.InstallLogin? && pc.LoginLocked? && pc.op.id > sh.ghosts.tombstone
  {
    hide Do, Attempts.AttemptFits, G.SnapshotFits, G.RefreshClaimFits;
    if act.CommitRefresh? || act.InstallRefusal? {
      LiveAttempt(sh, pc.attempt);
    }
  }

  lemma TombstoneActor(sh: Shared, t: Thread, pc: Pc, act: Action, sh': Shared, pc': Pc)
    requires Before(sh, t, pc) && sh.core.restoreBlocked
    requires Do(sh, t, pc, act) == Some((sh', pc'))
    ensures !IsSave(act)
    ensures
      || (sh'.core.restoreBlocked && sh'.ghosts.tombstone >= sh.ghosts.tombstone)
      || (&& act.InstallLogin? && pc.LoginLocked?
          && pc.op.id > sh.ghosts.tombstone
          && sh'.core.revision > sh.core.revision)
  {
    NoSaveUnderTombstone(sh, t, pc, act, sh', pc');
    StepEvent(sh, t, pc, act, sh', pc');
    EventTombstone(sh.core, EffectOf(sh, pc, act));
    if EffectOf(sh, pc, act).Installed? {
      InstallUnderTombstone(sh, t, pc, act, sh', pc');
    } else if act.ClearState? {
      ClearMovesTombstone(sh, t, pc, sh', pc');
    }
    hide *;
  }

  lemma EventTombstone(c: Core, e: Event)
    ensures !e.Installed? && c.restoreBlocked ==> Apply(c, e).restoreBlocked
    ensures e.Installed? ==> Apply(c, e).revision > c.revision
  {}

  lemma ClearMovesTombstone(sh: Shared, t: Thread, pc: Pc, sh': Shared, pc': Pc)
    requires CommitInv(sh) && CommitFits(sh, t, pc)
    requires Do(sh, t, pc, ClearState) == Some((sh', pc'))
    ensures sh.core.restoreBlocked ==> sh'.ghosts.tombstone >= sh.ghosts.tombstone
    ensures pc.LogoutLocked? && sh'.ghosts.tombstone == pc.op.id && sh'.core.restoreBlocked
  {
    hide DoLogin, DoCommit, DoRestore, DoToken, DoJoin, DoGrant, DoRefusal, DoClose, DoLoop,
         DoPersist, DoInit;
  }

  function ActorOp(r: Run, i: nat): Option<Operation>
    requires i < |r.states| && i < |r.labels|
  {
    OpOf(ActorPc(r, i))
  }

  /** After the local commit of Logout at step `i`, memory stays empty and no Save is
      issued up to state `j`, unless a Login admitted after that Logout commits in
      between -- whatever refreshes, refusals, restores, older Logins and claimed
      persistence retries are in flight. */
  lemma {:induction false} NoResurrection(r: Run, i: nat, j: nat)
    requires IsRun(r) && i < j < |r.states| && r.labels[i].action.ClearState?
    requires ActorOp(r, i).Some? ==>
               forall k :: i < k < j ==> !NewerLoginCommits(r, k, ActorOp(r, i).value.id)
    ensures ActorPc(r, i).LogoutLocked?
    ensures At(r, j).core.restoreBlocked && At(r, j).core.state == ZERO
    ensures At(r, j).ghosts.tombstone >= ActorPc(r, i).op.id
    ensures forall k :: i < k < j ==> !IsSave(r.labels[k].action)
    decreases j
  {
    hide Do, CommitInv, CommitFits, Inv, Initial;
    RunCommits(r, j);
    TombstoneMeans(At(r, j));
    var k := j - 1;
    RunCommits(r, k);
    assert IsStep(r, k);
    var t := r.labels[k].thread;
    if k == i {
      assert CommitFits(At(r, i), t, PcOf(r.states[i], t));
      ClearMovesTombstone(At(r, i), t, PcOf(r.states[i], t), At(r, j), PcOf(r.states[j], t));
    } else {
      NoResurrection(r, i, k);
      TombstoneStep(r.states[k], t, r.labels[k].action, r.states[j]);
      assert !NewerLoginCommits(r, k, ActorPc(r, i).op.id);
    }
  }

  lemma TombstoneMeans(sh: Shared)
    requires CommitInv(sh)
    ensures sh.core.restoreBlocked ==> sh.core.state == ZERO
  {}

  // ----- lifecycle order --------------------------------------------------------

  /** Login and Logout commit in admission order, every one of them as the newest
      operation admitted so far. */
  lemma LifecycleCommitsInOrder(r: Run, i: nat)
    requires IsRun(r) && i < |r.labels|
    ensures
      var before, after := At(r, i), At(r, i + 1);
      && (forall m, n :: 0 <= m < n < |after.ghosts.commits| ==>
            after.ghosts.commits[m].id < after.ghosts.commits[n].id)
      && (after.ghosts.commits != before.ghosts.commits ==>
            && ActorOp(r, i).Some?
            && after.ghosts.commits == before.ghosts.commits + [ActorOp(r, i).value]
            && ActorOp(r, i).value.id == before.lifecycleSeq)
  {
    hide Do, CommitFits, Inv, Initial;
    RunCommits(r, i);
    RunCommits(r, i + 1);
    assert IsStep(r, i);
    var t := r.labels[i].thread;
    assert CommitFits(At(r, i), t, PcOf(r.states[i], t));
    CommitIsNewest(At(r, i), t, ActorPc(r, i), r.labels[i].action, At(r, i + 1), PcOf(r.states[i + 1], t));
  }

  lemma CommitIsNewest(sh: Shared, t: Thread, pc: Pc, act: Action, sh': Shared, pc': Pc)
    requires CommitInv(sh) && CommitFits(sh, t, pc)
    requires Do(sh, t, pc, act) == Some((sh', pc'))
    ensures sh'.ghosts.commits != sh.ghosts.commits ==>
              && (act.InstallLogin? || act.ClearState?)
              && OpOf(pc).Some?
              && sh'.ghosts.commits == sh.ghosts.commits + [OpOf(pc).value]
              && OpOf(pc).value.id == sh.lifecycleSeq
  {
    StepEvent(sh, t, pc, act, sh', pc') by { hide *; }
    if act.InstallLogin? || act.ClearState? {
      CommitStep(sh, t, pc, act, sh', pc');
    }
  }

  lemma CommitStep(sh: Shared, t: Thread, pc: Pc, act: Action, sh': Shared, pc': Pc)
    requires CommitInv(sh) && CommitFits(sh, t, pc)
    requires act.InstallLogin? || act.ClearState?
    requires Do(sh, t, pc, act) == Some((sh', pc'))
    ensures sh'.ghosts.commits != sh.ghosts.commits ==>
              && OpOf(pc).Some?
              && sh'.ghosts.commits == sh.ghosts.commits + [OpOf(pc).value]
              && OpOf(pc).value.id == sh.lifecycleSeq
  {
    hide StoreFits, EventOrder, CommitOrder;
  }

  /** A Logout that finds another Logout current returns at once, and by then that
      Logout has committed: memory is empty and the tombstone is set. */
  lemma CoalescedLogout(r: Run, i: nat)
    requires IsRun(r) && i < |r.labels| && r.labels[i].action.BeginLogout?
    requires At(r, i + 1).lifecycleSeq == At(r, i).lifecycleSeq
    ensures At(r, i).operation.Some? && At(r, i).operation.value.kind.Logout?
    ensures At(r, i + 1).core.restoreBlocked && At(r, i + 1).core.state == ZERO
    ensures At(r, i + 1).ghosts.tombstone == At(r, i).operation.value.id
  {
    RunCommits(r, i);
    assert IsStep(r, i);
  }

  /** At most one flow-handler call of a Client is running. */
  lemma OneFlowHandler(r: Run, i: nat, t: Thread, u: Thread)
    requires IsRun(r) && i < |r.states|
    requires HoldsPermit(PcOf(r.states[i], t)) && HoldsPermit(PcOf(r.states[i], u))
    ensures t == u
  {
    RunInv(r, i);
    assert Local(At(r, i), t, PcOf(r.states[i], t));
    assert Local(At(r, i), u, PcOf(r.states[i], u));
  }

  // ----- Init -------------------------------------------------------------------

  /** Discovery snapshots are replaced all at once, in admission order, and only by
      the newest admitted Init. */
  lemma InitCommitsInOrder(r: Run, i: nat)
    requires IsRun(r) && i < |r.labels|
    ensures
      var before, after := At(r, i), At(r, i + 1);
      && (forall m, n :: 0 <= m < n < |after.ghosts.initCommits| ==>
            after.ghosts.initCommits[m] < after.ghosts.initCommits[n])
      && (after.core.discovery != before.core.discovery ==>
            && r.labels[i].action.CommitInit?
            && after.core.discovery == Some(r.labels[i].action.snapshot)
            && after.ghosts.initCommits == before.ghosts.initCommits + [before.initSeq])
  {
    hide Do, Apply, EffectOf, Initial;
    Retries.RunRetries(r, i);
    Retries.RunRetries(r, i + 1);
    assert IsStep(r, i);
    var t := r.labels[i].thread;
    StepEvent(At(r, i), t, ActorPc(r, i), r.labels[i].action, At(r, i + 1), PcOf(r.states[i + 1], t));
    EventDiscovers(At(r, i), t, ActorPc(r, i), r.labels[i].action, At(r, i + 1), PcOf(r.states[i + 1], t));
  }

  lemma EventDiscovers(sh: Shared, t: Thread, pc: Pc, act: Action, sh': Shared, pc': Pc)
    requires Do(sh, t, pc, act) == Some((sh', pc'))
    requires sh'.core == Apply(sh.core, EffectOf(sh, pc, act)) && Retries.InitOk(sh)
    ensures sh'.core.discovery != sh.core.discovery ==>
              && act.CommitInit?
              && sh'.core.discovery == Some(act.snapshot)
              && sh'.ghosts.initCommits == sh.ghosts.initCommits + [sh.initSeq]
  {
    hide DoLogin, DoLogout, DoCommit, DoRestore, DoToken, DoJoin, DoGrant, DoRefusal, DoClose,
         DoLoop, DoPersist;
    KeepsDiscovery(sh.core, EffectOf(sh, pc, act));
  }

  lemma KeepsDiscovery(c: Core, e: Event)
    ensures !e.Discovered? ==> Apply(c, e).discovery == c.discovery
  {}

  // ----- generations ------------------------------------------------------------

  /** The state changes only together with its revision, by one; a new generation starts
      with no schedule, no retry and no mark, and with every waiter woken. */
  lemma StateChangesAreGenerations(r: Run, i: nat)
    requires IsRun(r) && i < |r.labels|
    ensures
      var c, c' := At(r, i).core, At(r, i + 1).core;
      if c'.revision == c.revision then c'.state == c.state
      else
        && c'.revision == c.revision + 1
        && CurrentSchedule(c') == FreshSchedule(c'.revision) && !Parked(c')
        && !MarkedInconclusive(c', c'.revision) && !RetryPending(c')
        && (c'.restoreBlocked ==> r.labels[i].action.ClearState?)
        && c.wake < c'.wake
  {
    hide Do, Initial, Apply, EffectOf, Arrives, PartOf, Untouched;
    assert IsStep(r, i);
    var t, act := r.labels[i].thread, r.labels[i].action;
    StepEvent(At(r, i), t, ActorPc(r, i), act, At(r, i + 1), PcOf(r.states[i + 1], t));
    GenerationEvent(At(r, i).core, EffectOf(At(r, i), ActorPc(r, i), act));
    OnlyLogoutClears(At(r, i), ActorPc(r, i), act);
  }

  lemma GenerationEvent(c: Core, e: Event)
    ensures
      var c' := Apply(c, e);
      if c'.revision == c.revision then c'.state == c.state
      else
        && c'.revision == c.revision + 1
        && CurrentSchedule(c') == FreshSchedule(c'.revision) && !Parked(c')
        && !MarkedInconclusive(c', c'.revision) && !RetryPending(c')
        && (c'.restoreBlocked ==> e.Cleared?)
        && c.wake < c'.wake
  {}

  lemma OnlyLogoutClears(sh: Shared, pc: Pc, act: Action)
    ensures EffectOf(sh, pc, act).Cleared? ==> act.ClearState?
  {}

  /** Logout fences every attempt, also when memory was empty already and the revision
      therefore stays: no attempt belongs to the generation that Logout leaves behind. */
  lemma LogoutFencesAttempts(r: Run, i: nat)
    requires IsRun(r) && i < |r.labels| && r.labels[i].action.ClearState?
    ensures
      var sh' := At(r, i + 1);
      forall a :: a in sh'.attempts ==> sh'.attempts[a].revision < sh'.core.revision
  {
    RunCommits(r, i + 1);
    assert IsStep(r, i);
    ClearedIsBlocked(r, i);
    EmptyHasNoAttempt(r.states[i + 1]);
  }

  lemma ClearedIsBlocked(r: Run, i: nat)
    requires IsRun(r) && i < |r.labels| && r.labels[i].action.ClearState?
    ensures At(r, i + 1).core.restoreBlocked
  {
    hide Do, Initial, Arrives, PartOf, Untouched;
    assert IsStep(r, i);
    var t := r.labels[i].thread;
    StepEvent(At(r, i), t, ActorPc(r, i), r.labels[i].action, At(r, i + 1), PcOf(r.states[i + 1], t));
  }

  lemma EmptyHasNoAttempt(s: System)
    requires CommitsHold(s) && s.shared.core.restoreBlocked
    ensures forall a :: a in s.shared.attempts ==> s.shared.attempts[a].revision < s.shared.core.revision
  {
    forall a | a in s.shared.attempts
      ensures s.shared.attempts[a].revision < s.shared.core.revision
    {
      assert Attempts.AttemptOk(s.shared, a);
    }
  }
}
