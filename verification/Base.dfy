/**
 The base invariant: locks, generations, claims and attempts together, kept by every
 step of every thread and therefore true throughout every run.
*/
module Base {
  import opened Basics
  import opened Places
  import opened Protocol
  import A = Attempts
  import G = Generations
  import L = Locks

  ghost predicate Global(sh: Shared) {
    G.Shape(sh) && A.AttemptsOk(sh)
  }

  ghost predicate Local(sh: Shared, t: Thread, pc: Pc) {
    L.LocksFit(sh, t, pc) && G.Fits(sh, t, pc) && A.AttemptFits(sh, t, pc)
  }

  /** What thread `t` may rely on while others run. */
  ghost predicate Rely(t: Thread, sh: Shared, sh': Shared) {
    L.RelyLocks(t, sh, sh') && G.Rely(t, sh, sh') && A.RelyAttempts(t, sh, sh')
  }

  ghost predicate Inv(s: System) {
    Global(s.shared) && forall t :: Local(s.shared, t, PcOf(s, t))
  }

  lemma LocksKept(sh: Shared, t: Thread, pc: Pc, act: Action, sh': Shared, pc': Pc)
    requires L.LocksFit(sh, t, pc) && Do(sh, t, pc, act) == Some((sh', pc'))
    ensures L.Keeps(sh, t, sh', pc')
  {
    hide *;
    Dispatch(sh, t, pc, act);
    match GroupOf(act)
    case TimeGroup => L.TickKeeps(sh, t, pc, sh');
    case LoginGroup => L.LoginKeeps(sh, t, pc, act, sh', pc');
    case LogoutGroup => L.LogoutKeeps(sh, t, pc, act, sh', pc');
    case CommitGroup => L.CommitKeeps(sh, t, pc, act, sh', pc');
    case RestoreGroup => L.RestoreKeeps(sh, t, pc, act, sh', pc');
    case TokenGroup => L.TokenKeeps(sh, t, pc, act, sh', pc');
    case JoinGroup => L.JoinKeeps(sh, t, pc, act, sh', pc');
    case GrantGroup => L.GrantKeeps(sh, t, pc, act, sh', pc');
    case RefusalGroup => L.RefusalKeeps(sh, t, pc, act, sh', pc');
    case CloseGroup => L.CloseKeeps(sh, t, pc, act, sh', pc');
    case LoopGroup => L.LoopKeeps(sh, t, pc, act, sh', pc');
    case PersistGroup => L.PersistKeeps(sh, t, pc, act, sh', pc');
    case InitGroup => L.InitKeeps(sh, t, pc, act, sh', pc');
  }

  lemma GenerationsKept(sh: Shared, t: Thread, pc: Pc, act: Action, sh': Shared, pc': Pc)
    requires G.Sound(sh, t, pc)
    requires Do(sh, t, pc, act) == Some((sh', pc'))
    ensures G.Keeps(sh, t, sh', pc')
  {
    EveryActionIsGrouped(act);
    hide *;
    Dispatch(sh, t, pc, act);
    match GroupOf(act)
    case TimeGroup => G.TickKeeps(sh, t, pc, sh', pc');
    case LoginGroup => G.LoginKeeps(sh, t, pc, act, sh', pc');
    case LogoutGroup => G.LogoutKeeps(sh, t, pc, act, sh', pc');
    case CommitGroup => G.CommitKeeps(sh, t, pc, act, sh', pc');
    case RestoreGroup => G.RestoreKeeps(sh, t, pc, act, sh', pc');
    case TokenGroup => G.TokenKeeps(sh, t, pc, act, sh', pc');
    case JoinGroup => G.JoinKeeps(sh, t, pc, act, sh', pc');
    case GrantGroup => G.GrantKeeps(sh, t, pc, act, sh', pc');
    case RefusalGroup => G.RefusalKeeps(sh, t, pc, act, sh', pc');
    case CloseGroup => G.CloseKeeps(sh, t, pc, act, sh', pc');
    case LoopGroup => G.LoopKeeps(sh, t, pc, act, sh', pc');
    case PersistGroup => G.PersistKeeps(sh, t, pc, act, sh', pc');
    case InitGroup => G.InitKeeps(sh, t, pc, act, sh', pc');
  }

  lemma AttemptsKept(sh: Shared, t: Thread, pc: Pc, act: Action, sh': Shared, pc': Pc)
    requires G.Keyed(sh) && G.SnapshotFits(sh, pc) && A.AttemptsOk(sh) && A.AttemptFits(sh, t, pc)
    requires Do(sh, t, pc, act) == Some((sh', pc'))
    ensures A.Keeps(sh, t, sh', pc')
  {
    hide G.Keyed, G.SnapshotFits, A.AttemptsOk, A.AttemptFits, A.Keeps, A.SameAttempts, A.SameDuty;
    hide DoLogin, DoLogout, DoCommit, DoRestore, DoToken, DoJoin, DoGrant, DoRefusal, DoClose,
         DoLoop, DoPersist, DoInit;
    match act
    case TryRefresh(ctxDone) => A.TryKeeps(sh, t, pc, ctxDone, sh', pc');
    case CancelWait(_) => A.LeavingKeeps(sh, t, pc, act, sh', pc');
    case ReadOutcome(_) => A.LeavingKeeps(sh, t, pc, act, sh', pc');
    case Launch => A.LaunchKeeps(sh, t, pc, sh', pc');
    case FinishAttempt(now) => A.FinishKeeps(sh, t, pc, now, sh', pc');
    case CloseComplete => A.CompleteKeeps(sh, t, pc, sh', pc');
    case _ =>
      OtherActionsLeaveAttempts(sh, t, pc, act, sh', pc');
      A.SameAttemptsKeep(sh, t, pc, sh', pc');
  }

  lemma OtherActionsLeaveAttempts(sh: Shared, t: Thread, pc: Pc, act: Action, sh': Shared, pc': Pc)
    requires Do(sh, t, pc, act) == Some((sh', pc')) && !A.TouchesAttempts(act)
    ensures A.SameAttempts(sh, sh') && A.SameDuty(t, pc, pc')
  {
    hide *;
    Dispatch(sh, t, pc, act);
    A.TouchingGroups(act);
    match GroupOf(act)
    case TimeGroup => A.TickEffect(sh, t, pc, sh');
    case JoinGroup =>
    case CloseGroup =>
    case LoginGroup => A.LoginEffect(sh, t, pc, act, sh', pc');
    case LogoutGroup => A.LogoutEffect(sh, t, pc, act, sh', pc');
    case CommitGroup => A.CommitEffect(sh, t, pc, act, sh', pc');
    case RestoreGroup => A.RestoreEffect(sh, t, pc, act, sh', pc');
    case TokenGroup => A.TokenEffect(sh, t, pc, act, sh', pc');
    case GrantGroup => A.GrantEffect(sh, t, pc, act, sh', pc');
    case RefusalGroup => A.RefusalEffect(sh, t, pc, act, sh', pc');
    case LoopGroup => A.LoopEffect(sh, t, pc, act, sh', pc');
    case PersistGroup => A.PersistEffect(sh, t, pc, act, sh', pc');
    case InitGroup => A.InitEffect(sh, t, pc, act, sh', pc');
  }

  /** The step of one thread, seen by itself and by all others. */
  lemma StepKeeps(sh: Shared, t: Thread, pc: Pc, act: Action, sh': Shared, pc': Pc)
    requires Global(sh) && Local(sh, t, pc)
    requires Do(sh, t, pc, act) == Some((sh', pc'))
    ensures Global(sh') && Local(sh', t, pc')
    ensures forall u :: u != t ==> Rely(u, sh, sh')
  {
    LocksKept(sh, t, pc, act, sh', pc');
    GenerationsKept(sh, t, pc, act, sh', pc');
    AttemptsKept(sh, t, pc, act, sh', pc');
  }

  lemma RelyKeeps(t: Thread, pc: Pc, sh: Shared, sh': Shared)
    requires Global(sh) && Global(sh') && Local(sh, t, pc) && Rely(t, sh, sh')
    ensures Local(sh', t, pc)
  {
    G.RelyKeepsFits(t, pc, sh, sh');
    A.RelyKeepsAttemptFits(t, pc, sh, sh');
  }

  lemma SystemStepKeeps(s: System, t: Thread, act: Action, s': System)
    requires Inv(s) && StepTo(s, t, act) == Some(s')
    ensures Inv(s')
    ensures forall u :: u != t ==> PcOf(s', u) == PcOf(s, u) && Rely(u, s.shared, s'.shared)
  {
    var sh, sh' := s.shared, s'.shared;
    StepKeeps(sh, t, PcOf(s, t), act, sh', PcOf(s', t));
    forall u ensures Local(sh', u, PcOf(s', u)) {
      if u != t {
        assert PcOf(s', u) == PcOf(s, u);
        RelyKeeps(u, PcOf(s, u), sh, sh');
      }
    }
  }

  lemma InitialInv(s: System)
    requires Initial(s)
    ensures Inv(s)
  {}

  /** Every state of every run satisfies the base invariant. */
  lemma {:induction false} RunInv(r: Run, i: nat)
    requires IsRun(r) && i < |r.states|
    ensures Inv(r.states[i])
  {
    if i == 0 {
      InitialInv(r.states[0]);
    } else {
      RunInv(r, i - 1);
      assert IsStep(r, i - 1);
      SystemStepKeeps(r.states[i - 1], r.labels[i - 1].thread, r.labels[i - 1].action, r.states[i]);
    }
  }
}
