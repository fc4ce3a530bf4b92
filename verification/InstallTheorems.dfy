/**
 What Login, RestoreSession and Logout leave in memory (login.go:141-252,
 client.go:218-251, logout.go:64-87), exactly and in every run.
*/
module InstallTheorems {
  import opened Base
  import opened Basics
  import opened ClientCore
  import opened Commits
  import opened CoreEvents
  import opened ParkingTheorems
  import opened Places
  import opened Protocol
  import opened SessionTheorems
  import opened Tokens
  import Attempts

  // ----- Login ------------------------------------------------------------------

  /** Verified tokens that wait to be committed. */
  predicate HasTokens(pc: Pc) {
    pc.LoginReady? || pc.LoginLocked?
  }

  /** They come from the exchange of the same operation. */
  ghost predicate Exchanged(r: Run, k: nat, t: Thread, op: Operation, tokens: TokenState)
    requires IsRun(r)
  {
    k < |r.labels| && r.labels[k] == Label(t, LoginTokens(tokens)) && ActorPc(r, k) == LoginFlow(op)
  }

  lemma {:induction false} TokensBehind(r: Run, i: nat, t: Thread)
    requires IsRun(r) && i < |r.states| && HasTokens(PcOf(r.states[i], t))
    ensures exists k: nat :: k < i && Exchanged(r, k, t, PcOf(r.states[i], t).op, PcOf(r.states[i], t).next)
  {
    hide Do, Initial;
    if i == 0 {
      NobodyStartsWithTokens(r, t);
    } else {
      StepAt(r, i - 1);
      var pc, pc' := PcOf(r.states[i - 1], t), PcOf(r.states[i], t);
      assert IsStep(r, i - 1);
      if pc' == pc {
        TokensBehind(r, i - 1, t);
      } else {
        assert r.labels[i - 1].thread == t;
        TokensArrive(At(r, i - 1), t, pc, r.labels[i - 1].action, At(r, i), pc');
        if pc == LoginFlow(pc'.op) {
          assert Exchanged(r, i - 1, t, pc'.op, pc'.next);
        } else {
          ReadyHasTokens(pc);
          TokensBehind(r, i - 1, t);
        }
      }
    }
  }

  lemma NobodyStartsWithTokens(r: Run, t: Thread)
    requires IsRun(r)
    ensures !HasTokens(PcOf(r.states[0], t))
  {}

  lemma ReadyHasTokens(pc: Pc)
    ensures pc.LoginReady? ==> HasTokens(pc)
    ensures HasTokens(pc) ==> PartOf(pc).Operating?
  {}

  lemma TokensArrive(sh: Shared, t: Thread, pc: Pc, act: Action, sh': Shared, pc': Pc)
    requires Do(sh, t, pc, act) == Some((sh', pc')) && HasTokens(pc') && pc' != pc
    ensures
      || (act == LoginTokens(pc'.next) && pc == LoginFlow(pc'.op))
      || pc == LoginReady(pc'.op, pc'.next)
  {
    EveryActionIsGrouped(act);
    ReadyHasTokens(pc');
    hide *;
    Dispatch(sh, t, pc, act);
    match GroupOf(act)
    case LoginGroup => FlowBringsTokens(sh, t, pc, act, sh', pc');
    case LogoutGroup => LogoutBringsNone(sh, t, pc, act);
    case CommitGroup => CommitBringsNone(sh, t, pc, act);
    case RestoreGroup => RestoreEvent(sh, t, pc, act, sh', pc');
    case TokenGroup => TokenEvent(sh, t, pc, act, sh', pc');
    case JoinGroup => JoinEvent(sh, t, pc, act, sh', pc');
    case GrantGroup => GrantEvent(sh, t, pc, act, sh', pc');
    case RefusalGroup => RefusalEvent(sh, t, pc, act, sh', pc');
    case CloseGroup => CloseEvent(sh, t, pc, act, sh', pc');
    case LoopGroup => LoopBringsNone(sh, t, pc, act);
    case PersistGroup => PersistBringsNone(sh, t, pc, act);
    case InitGroup => InitEvent(sh, t, pc, act, sh', pc');
    case TimeGroup =>
  }

  lemma FlowBringsTokens(sh: Shared, t: Thread, pc: Pc, act: Action, sh': Shared, pc': Pc)
    requires DoLogin(sh, t, pc, act) == Some((sh', pc')) && HasTokens(pc')
    ensures
      || (act == LoginTokens(pc'.next) && pc == LoginFlow(pc'.op))
      || pc == LoginReady(pc'.op, pc'.next)
  {
    hide Install;
  }

  lemma LogoutBringsNone(sh: Shared, t: Thread, pc: Pc, act: Action)
    ensures DoLogout(sh, t, pc, act).Some? ==> !HasTokens(DoLogout(sh, t, pc, act).value.1)
  {}

  lemma CommitBringsNone(sh: Shared, t: Thread, pc: Pc, act: Action)
    ensures DoCommit(sh, t, pc, act).Some? ==> !HasTokens(DoCommit(sh, t, pc, act).value.1)
  {}

  lemma LoopBringsNone(sh: Shared, t: Thread, pc: Pc, act: Action)
    ensures DoLoop(sh, t, pc, act).Some? ==> !HasTokens(DoLoop(sh, t, pc, act).value.1)
  {
    hide NextRefresh, ReleaseClaim;
  }

  lemma PersistBringsNone(sh: Shared, t: Thread, pc: Pc, act: Action)
    ensures DoPersist(sh, t, pc, act).Some? ==> !HasTokens(DoPersist(sh, t, pc, act).value.1)
  {
    hide NextPersistence, FinishRetry;
  }

  /** A Login commits if and only if, with the commit lock taken, its operation is still the
      current one and its context is live; and it commits the very tokens of its exchange. */
  lemma LoginInstallsItsTokens(r: Run, i: nat)
    requires IsRun(r) && i < |r.labels| && r.labels[i].action.InstallLogin?
    ensures ActorPc(r, i).LoginLocked?
    ensures
      var t, pc, core, core' := r.labels[i].thread, ActorPc(r, i), At(r, i).core, At(r, i + 1).core;
      if r.labels[i].action.alive && At(r, i).operation == Some(pc.op) then
        && core'.revision == core.revision + 1
        && exists k: nat :: k < i && Exchanged(r, k, t, pc.op, core'.state)
      else core' == core
  {
    hide Do, Initial;
    StepAt(r, i);
    var t := r.labels[i].thread;
    LoginDecides(At(r, i), t, ActorPc(r, i), r.labels[i].action, At(r, i + 1), PcOf(r.states[i + 1], t));
    TokensBehind(r, i, t);
  }

  lemma LoginDecides(sh: Shared, t: Thread, pc: Pc, act: Action, sh': Shared, pc': Pc)
    requires act.InstallLogin? && Do(sh, t, pc, act) == Some((sh', pc'))
    ensures pc.LoginLocked?
    ensures
      if act.alive && sh.operation == Some(pc.op) then
        sh'.core.revision == sh.core.revision + 1 && sh'.core.state == pc.next
      else sh'.core == sh.core
  {
    EveryActionIsGrouped(act);
    Dispatch(sh, t, pc, act);
    hide Do, GroupOf;
  }

  /** Before that, an operation goes on past each of its waits if and only if it is still the
      current one and its context is live; otherwise it ends and gives back what it was
      granted. */
  lemma OperationsAreFenced(r: Run, i: nat)
    requires IsRun(r) && i < |r.labels|
    ensures
      var sh, sh', t, act := At(r, i), At(r, i + 1), r.labels[i].thread, r.labels[i].action;
      Fenced(sh, t, ActorPc(r, i), act, sh', PcOf(r.states[i + 1], t))
  {
    hide Do, Initial, Fenced;
    StepAt(r, i);
    var t := r.labels[i].thread;
    FenceSteps(At(r, i), t, ActorPc(r, i), r.labels[i].action, At(r, i + 1), PcOf(r.states[i + 1], t));
  }

  predicate Fenced(sh: Shared, t: Thread, pc: Pc, act: Action, sh': Shared, pc': Pc) {
    && (act.TakePermit? ==>
          && (pc.LoginFlow? || pc.LogoutRemote?)
          && if act.alive && sh.operation == Some(pc.op) then
               && sh'.flowPermit == Some(t)
               && pc' == if pc.LoginFlow? then LoginHandler(pc.op) else LogoutHandler(pc.op)
             else sh'.flowPermit == None && pc' == OpFinishing(pc.op))
    && (act.HandlerReturns? ==>
          && (pc.LoginHandler? || pc.LogoutHandler?) && sh'.flowPermit == None
          && pc' == if pc.LoginHandler? && act.alive && sh.operation == Some(pc.op)
                    then LoginFlow(pc.op) else OpFinishing(pc.op))
    && (act.LockLifecycle? ==>
          && pc.LoginReady?
          && if act.alive && sh.operation == Some(pc.op) then
               sh'.lifecycleMu == Some(t) && pc' == LoginLocked(pc.op, pc.next)
             else sh'.lifecycleMu == None && pc' == OpFinishing(pc.op))
    && (act.FinishOperation? ==>
          && pc.OpFinishing? && pc' == Idle
          && sh'.operation == if sh.operation == Some(pc.op) then None else sh.operation)
  }

  lemma FenceSteps(sh: Shared, t: Thread, pc: Pc, act: Action, sh': Shared, pc': Pc)
    requires Do(sh, t, pc, act) == Some((sh', pc'))
    ensures Fenced(sh, t, pc, act, sh', pc')
  {
    EveryActionIsGrouped(act);
    Dispatch(sh, t, pc, act);
    hide Do, GroupOf, Install, DoLogout, DoCommit, DoRestore, DoToken, DoJoin, DoGrant, DoRefusal,
         DoClose, DoLoop, DoPersist, DoInit;
  }

  // ----- RestoreSession ---------------------------------------------------------

  /** RestoreSession loads if and only if no Logout blocks it and no newer state waits to be
      saved; it goes on if and only if the Load succeeds and finds tokens; and then memory
      holds exactly what the store holds, as a new generation if that is a change. */
  lemma RestoreIsExact(r: Run, i: nat)
    requires IsRun(r) && i < |r.labels|
    ensures
      var sh, sh', act, pc := At(r, i), At(r, i + 1), r.labels[i].action, ActorPc(r, i);
      var pc' := PcOf(r.states[i + 1], r.labels[i].thread);
      && (act.BeginRestore? ==>
            pc' == if !sh.core.restoreBlocked
                      && !(sh.core.retry.valid && sh.core.retry.revision == sh.core.revision)
                   then RestoreLoading else Idle)
      && (act.LoadReturns? ==>
            pc' == if !act.failed && (sh.store.accessToken != "" || sh.store.refreshToken != ""
                                      || sh.store.idToken != "")
                   then RestoreInstalling(sh.store) else Idle)
      && (act.InstallRestored? ==>
            && sh'.core.state == sh.store
            && (sh'.core.revision == sh.core.revision <==> sh.core.state == sh.store))
  {
    hide Do, Initial, Inv, CommitInv, OpFits;
    RunCommits(r, i);
    StepAt(r, i);
    var t := r.labels[i].thread;
    assert CommitFits(At(r, i), t, ActorPc(r, i));
    RestoreSteps(At(r, i), t, ActorPc(r, i), r.labels[i].action, At(r, i + 1), PcOf(r.states[i + 1], t));
  }

  lemma RestoreSteps(sh: Shared, t: Thread, pc: Pc, act: Action, sh': Shared, pc': Pc)
    requires Do(sh, t, pc, act) == Some((sh', pc')) && StoreFits(sh, pc)
    ensures act.BeginRestore? ==>
              pc' == if !sh.core.restoreBlocked
                        && !(sh.core.retry.valid && sh.core.retry.revision == sh.core.revision)
                     then RestoreLoading else Idle
    ensures act.LoadReturns? ==>
              pc' == if !act.failed && (sh.store.accessToken != "" || sh.store.refreshToken != ""
                                        || sh.store.idToken != "")
                     then RestoreInstalling(sh.store) else Idle
    ensures act.InstallRestored? ==>
              && sh'.core.state == sh.store
              && (sh'.core.revision == sh.core.revision <==> sh.core.state == sh.store)
  {
    EveryActionIsGrouped(act);
    Dispatch(sh, t, pc, act);
    hide Do, GroupOf, DoLogin, DoLogout, DoCommit, DoToken, DoJoin, DoGrant, DoRefusal, DoClose,
         DoLoop, DoPersist, DoInit;
  }

  // ----- Logout -----------------------------------------------------------------

  /** A Logout is turned away if and only if another one is current; otherwise it becomes
      the newest operation. Its commit empties memory, forgets an owed Save and blocks
      RestoreSession; the revision moves exactly if memory was not empty already. */
  lemma LogoutIsExact(r: Run, i: nat)
    requires IsRun(r) && i < |r.labels|
    ensures
      var sh, sh', act := At(r, i), At(r, i + 1), r.labels[i].action;
      var pc' := PcOf(r.states[i + 1], r.labels[i].thread);
      && (act.BeginLogout? ==>
            && (pc' == Idle <==> sh.operation.Some? && sh.operation.value.kind.Logout?)
            && (pc' != Idle ==> pc'.LogoutLocked? && sh'.operation == Some(pc'.op)
                                && pc'.op.id == sh.lifecycleSeq + 1 && pc'.op.kind.Logout?))
      && (act.ClearState? ==>
            && sh'.core.state == TokenState("", "", "", 0, 0)
            && !sh'.core.retry.valid && sh'.core.restoreBlocked
            && sh'.core.revision == sh.core.revision
                                    + (if sh.core.state == TokenState("", "", "", 0, 0) then 0 else 1))
  {
    hide Do, Initial;
    StepAt(r, i);
    var t := r.labels[i].thread;
    LogoutSteps(At(r, i), t, ActorPc(r, i), r.labels[i].action, At(r, i + 1), PcOf(r.states[i + 1], t));
  }

  lemma LogoutSteps(sh: Shared, t: Thread, pc: Pc, act: Action, sh': Shared, pc': Pc)
    requires Do(sh, t, pc, act) == Some((sh', pc'))
    ensures act.BeginLogout? ==>
              && (pc' == Idle <==> sh.operation.Some? && sh.operation.value.kind.Logout?)
              && (pc' != Idle ==> pc'.LogoutLocked? && sh'.operation == Some(pc'.op)
                                  && pc'.op.id == sh.lifecycleSeq + 1 && pc'.op.kind.Logout?)
    ensures act.ClearState? ==>
              && sh'.core.state == TokenState("", "", "", 0, 0)
              && !sh'.core.retry.valid && sh'.core.restoreBlocked
              && sh'.core.revision == sh.core.revision
                                      + (if sh.core.state == TokenState("", "", "", 0, 0) then 0 else 1)
  {
    EveryActionIsGrouped(act);
    Dispatch(sh, t, pc, act);
    hide Do, GroupOf, DoLogin, DoRestore, DoCommit, DoToken, DoJoin, DoGrant, DoRefusal, DoClose,
         DoLoop, DoPersist, DoInit;
  }

  // ----- Init -------------------------------------------------------------------

  /** An Init installs its whole snapshot if and only if it is the newest one admitted and not
      cancelled; that step is available exactly then. */
  lemma InitIsExact(r: Run, i: nat, t: Thread, snapshot: Discovery, alive: bool)
    requires IsRun(r) && i < |r.states| && PcOf(r.states[i], t).Discovering?
    ensures
      var sh, pc := At(r, i), PcOf(r.states[i], t);
      var next := Do(sh, t, pc, CommitInit(snapshot, alive));
      && (next.Some? <==> alive && sh.initOperation == Some(pc.id))
      && (next.Some? ==>
            && next.value.0.core.discovery == Some(snapshot) && next.value.0.initOperation == None
            && next.value.0.core.state == sh.core.state && next.value.1 == Idle)
    ensures
      var sh, pc := At(r, i), PcOf(r.states[i], t);
      && (Do(sh, t, pc, FailInit(alive)).Some? <==> alive && sh.initOperation == Some(pc.id))
      && Do(sh, t, pc, FinishInit).Some?
  {
    var sh, pc := At(r, i), PcOf(r.states[i], t);
    EveryActionIsGrouped(CommitInit(snapshot, alive));
    EveryActionIsGrouped(FailInit(alive));
    EveryActionIsGrouped(FinishInit);
    Dispatch(sh, t, pc, CommitInit(snapshot, alive));
    Dispatch(sh, t, pc, FailInit(alive));
    Dispatch(sh, t, pc, FinishInit);
    hide Do, GroupOf, Initial, IsStep;
  }
}
