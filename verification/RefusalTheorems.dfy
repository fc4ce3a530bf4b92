/**
 Main results about credential refusal (refresh.go:97-181), for every run: when a
 refused generation replaces the current one, that inconclusive attempts are never
 forgotten, and that a restart cannot revive a refused session.
*/
module RefusalTheorems {
  import opened Base
  import opened Basics
  import opened ClientCore
  import opened CoreEvents
  import opened Errors
  import opened Places
  import opened Protocol
  import opened Refusals
  import opened SessionTheorems
  import opened Tokens
  import A = Attempts
  import C = Commits
  import G = Generations

  // ----- when a session is refused ----------------------------------------------

  /** The store holds no refresh token, the attempted one, or one that was not obtained by a
      later authentication. */
  predicate NotAhead(store: TokenState, attempted: TokenState) {
    || store.refreshToken == ""
    || store.refreshToken == attempted.refreshToken
    || store.lastAuthAt <= attempted.lastAuthAt
  }

  /** What each section of the refusal decides, exactly:
      it enters iff the attempt's revision is current and no attempt of that revision
      was ever abandoned inconclusively; it goes on iff the store could not be read or
      does not hold a different, later-authenticated refresh token; and once there, it
      always replaces the generation by one that keeps the ID token only -- the last
      revision check cannot fail. */
  lemma RefusalIsExact(r: Run, i: nat)
    requires IsRun(r) && i < |r.labels|
    ensures
      var sh, sh', act := At(r, i), At(r, i + 1), r.labels[i].action;
      var pc, pc' := ActorPc(r, i), PcOf(r.states[i + 1], r.labels[i].thread);
      && (act.CheckRefusal? ==>
            && pc.Refusing? && pc.attempt in sh.attempts
            && var revision := sh.attempts[pc.attempt].revision;
               pc' == if sh.core.revision == revision && revision !in sh.ghosts.inconclusive
                      then RefusalLoading(pc.attempt)
                      else Finishing(pc.attempt, Outcome(ZERO, Some(InvalidGrant))))
      && (act.LoadForRefusal? ==>
            && pc.RefusalLoading? && pc.attempt in sh.attempts
            && pc' == if act.failed || NotAhead(sh.store, sh.attempts[pc.attempt].snapshot)
                      then RefusalInstalling(pc.attempt, act.failed)
                      else Finishing(pc.attempt, Outcome(ZERO, Some(InvalidGrant))))
      && (act.InstallRefusal? ==>
            && pc.RefusalInstalling? && pc.attempt in sh.attempts
            && sh'.core.revision == sh.core.revision + 1
            && sh'.core.state
               == TokenState("", "", sh.attempts[pc.attempt].snapshot.idToken, 0, 0))
  {
    hide Do, Inv, Initial;
    RunRefusals(r, i);
    assert IsStep(r, i);
    var t := r.labels[i].thread;
    KeyedOf(r.states[i]);
    RefusalSections(At(r, i), t, PcOf(r.states[i], t), r.labels[i].action, At(r, i + 1),
                    PcOf(r.states[i + 1], t));
  }

  lemma KeyedOf(s: System)
    requires Inv(s)
    ensures G.Keyed(s.shared)
  {}

  lemma RefusalSections(sh: Shared, t: Thread, pc: Pc, act: Action, sh': Shared, pc': Pc)
    requires MarksOk(sh) && Fits(sh, pc) && G.Keyed(sh)
    requires Do(sh, t, pc, act) == Some((sh', pc'))
    ensures act.CheckRefusal? ==>
              && pc.Refusing? && pc.attempt in sh.attempts
              && var revision := sh.attempts[pc.attempt].revision;
                 pc' == if sh.core.revision == revision && revision !in sh.ghosts.inconclusive
                        then RefusalLoading(pc.attempt)
                        else Finishing(pc.attempt, Outcome(ZERO, Some(InvalidGrant)))
    ensures act.LoadForRefusal? ==>
              && pc.RefusalLoading? && pc.attempt in sh.attempts
              && pc' == if act.failed || NotAhead(sh.store, sh.attempts[pc.attempt].snapshot)
                        then RefusalInstalling(pc.attempt, act.failed)
                        else Finishing(pc.attempt, Outcome(ZERO, Some(InvalidGrant)))
    ensures act.InstallRefusal? ==>
              && pc.RefusalInstalling? && pc.attempt in sh.attempts
              && sh'.core.revision == sh.core.revision + 1
              && sh'.core.state
                 == TokenState("", "", sh.attempts[pc.attempt].snapshot.idToken, 0, 0)
  {
    EveryActionIsGrouped(act);
    Dispatch(sh, t, pc, act);
    hide Do, GroupOf;
  }

  /** On its way from the provider's refusal to the commit of it. */
  predicate Refused(pc: Pc) {
    || (pc.GrantFailed? && pc.failure.InvalidGrant?)
    || pc.Refusing? || pc.RefusalLoading? || pc.RefusalInstalling?
  }

  /** Only the provider's invalid_grant (section 5.2 of RFC 6749) leads to a refusal. */
  lemma {:induction false} RefusedByProvider(r: Run, i: nat, t: Thread)
    requires IsRun(r) && i < |r.states| && Refused(PcOf(r.states[i], t))
    ensures exists k :: 0 <= k < i && r.labels[k] == Label(t, GrantFails(InvalidGrant))
  {
    hide Do, Refused;
    if i == 0 {
      NotRefused(Idle);
    } else {
      assert IsStep(r, i - 1);
      var pc, pc' := PcOf(r.states[i - 1], t), PcOf(r.states[i], t);
      if Refused(pc) {
        RefusedByProvider(r, i - 1, t);
      } else {
        EnteringRefusal(At(r, i - 1), t, pc, r.labels[i - 1].action, At(r, i), pc');
      }
    }
  }

  lemma NotRefused(pc: Pc)
    requires !PartOf(pc).Attempting? && !PartOf(pc).InRefusal?
    ensures !Refused(pc)
  {}

  lemma EnteringRefusal(sh: Shared, t: Thread, pc: Pc, act: Action, sh': Shared, pc': Pc)
    requires Do(sh, t, pc, act) == Some((sh', pc')) && Refused(pc') && !Refused(pc)
    ensures act == GrantFails(InvalidGrant)
  {
    EveryActionIsGrouped(act);
    StepEvent(sh, t, pc, act, sh', pc') by { hide *; }
    RefusedArrival(act, pc') by { hide *; }
    hide *;
    Dispatch(sh, t, pc, act);
    if act.GrantFails? || act.GrantSucceeds? || act.FenceFailure? || act.Launch?
       || act.CommitRefresh? {
      GrantRefuses(sh, t, pc, act, sh', pc');
    } else if act.CheckRefusal? || act.LoadForRefusal? || act.InstallRefusal? {
      RefusalRefuses(sh, t, pc, act, sh', pc');
    } else if act.FinishAttempt? {
      FinishRefusesNothing(sh, t, pc, act, sh', pc');
    } else if act.QueueCommitEvent? {
      QueueRefusesNothing(sh, t, pc, act, sh', pc');
    }
  }

  lemma RefusedArrival(act: Action, pc: Pc)
    requires Refused(pc) && Arrives(act, PartOf(pc))
    ensures
      || act.Launch? || act.GrantFails? || act.GrantSucceeds? || act.FenceFailure?
      || act.CommitRefresh? || act.CheckRefusal? || act.LoadForRefusal? || act.InstallRefusal?
      || act.FinishAttempt? || act.QueueCommitEvent?
  {}

  lemma GrantRefuses(sh: Shared, t: Thread, pc: Pc, act: Action, sh': Shared, pc': Pc)
    requires DoGrant(sh, t, pc, act) == Some((sh', pc')) && Refused(pc') && !Refused(pc)
    ensures act == GrantFails(InvalidGrant)
  {
    hide RefreshedState;
  }

  lemma RefusalRefuses(sh: Shared, t: Thread, pc: Pc, act: Action, sh': Shared, pc': Pc)
    requires DoRefusal(sh, t, pc, act) == Some((sh', pc')) && Refused(pc')
    ensures Refused(pc)
  {}

  lemma FinishRefusesNothing(sh: Shared, t: Thread, pc: Pc, act: Action, sh': Shared, pc': Pc)
    requires DoClose(sh, t, pc, act) == Some((sh', pc'))
    ensures !Refused(pc')
  {}

  lemma QueueRefusesNothing(sh: Shared, t: Thread, pc: Pc, act: Action, sh': Shared, pc': Pc)
    requires DoCommit(sh, t, pc, act) == Some((sh', pc'))
    ensures !Refused(pc')
  {}

  /** A refused generation is committed only after the provider said invalid_grant to
      that attempt, while its revision is current and was never inconclusive, and while
      the store does not hold a superseding token. */
  lemma RefusalIsJustified(r: Run, i: nat)
    requires IsRun(r) && i < |r.labels| && r.labels[i].action.InstallRefusal?
    ensures
      var sh, pc := At(r, i), ActorPc(r, i);
      && pc.RefusalInstalling? && pc.attempt in sh.attempts
      && r.labels[i].thread == Goroutine(pc.attempt)
      && sh.attempts[pc.attempt].revision == sh.core.revision
      && sh.core.revision !in sh.ghosts.inconclusive
      && (pc.loadFailed || NotAhead(sh.store, sh.attempts[pc.attempt].snapshot))
      && exists k :: 0 <= k < i && r.labels[k] == Label(r.labels[i].thread, GrantFails(InvalidGrant))
  {
    hide Do, Inv, Initial, Refused;
    RunRefusals(r, i);
    assert IsStep(r, i);
    var t, pc := r.labels[i].thread, ActorPc(r, i);
    assert Fits(At(r, i), pc);
    InstallsFrom(At(r, i), t, pc, At(r, i + 1), PcOf(r.states[i + 1], t));
    OwnerOf(r.states[i], t);
    RefusedByProvider(r, i, t);
  }

  lemma InstallsFrom(sh: Shared, t: Thread, pc: Pc, sh': Shared, pc': Pc)
    requires Do(sh, t, pc, InstallRefusal) == Some((sh', pc'))
    ensures pc.RefusalInstalling? && Refused(pc)
  {}

  lemma OwnerOf(s: System, t: Thread)
    requires Inv(s) && PcOf(s, t).RefusalInstalling?
    ensures t == Goroutine(PcOf(s, t).attempt)
  {
    hide G.Shape, G.Fits;
    assert Local(s.shared, t, PcOf(s, t));
  }

  // ----- marks ------------------------------------------------------------------

  /** The inconclusive mark of a revision is set in the very step that lets the next
      attempt start, and is set exactly for an abandoned attempt of the current
      revision whose failure was not the provider's answer. */
  lemma MarkedBeforeNextAttempt(r: Run, i: nat)
    requires IsRun(r) && i < |r.labels| && r.labels[i].action.FinishAttempt?
    ensures
      var sh, sh', pc := At(r, i), At(r, i + 1), ActorPc(r, i);
      && pc.Finishing? && pc.attempt in sh.attempts
      && sh.current == Some(pc.attempt) && sh'.current == None
      && var at := sh.attempts[pc.attempt];
         sh'.ghosts.inconclusive == sh.ghosts.inconclusive +
           (if && at.revision == sh.core.revision
               && at.participants == 0
               && pc.outcome.failure.Some?
               && !Permanent(pc.outcome.failure.value)
               && !ProviderAnswered(pc.outcome.failure.value)
            then {at.revision} else {})
  {
    hide G.Shape, G.Fits, Initial;
    RunInv(r, i);
    assert IsStep(r, i);
    var t := r.labels[i].thread;
    assert Local(At(r, i), t, ActorPc(r, i));
    FinishIsMarked(At(r, i), t, ActorPc(r, i), r.labels[i].action.now, At(r, i + 1),
                   PcOf(r.states[i + 1], t));
  }

  lemma FinishNeeds(sh: Shared, t: Thread, pc: Pc, now: Time, sh': Shared, pc': Pc)
    requires Do(sh, t, pc, FinishAttempt(now)) == Some((sh', pc'))
    ensures pc.Finishing? && pc.attempt in sh.attempts
  {}

  lemma UnfinishedIsCurrent(sh: Shared, t: Thread, pc: Pc)
    requires Global(sh) && Local(sh, t, pc) && pc.Finishing? && pc.attempt in sh.attempts
    ensures sh.current == Some(pc.attempt)
    ensures sh.attempts[pc.attempt].cancelled <==> sh.attempts[pc.attempt].participants == 0
  {
    assert A.AttemptOk(sh, pc.attempt);
  }

  lemma FinishIsMarked(sh: Shared, t: Thread, pc: Pc, now: Time, sh': Shared, pc': Pc)
    requires Global(sh) && Local(sh, t, pc)
    requires Do(sh, t, pc, FinishAttempt(now)) == Some((sh', pc'))
    ensures pc.Finishing? && pc.attempt in sh.attempts
    ensures sh.current == Some(pc.attempt) && sh'.current == None
    ensures
      var at := sh.attempts[pc.attempt];
      sh'.ghosts.inconclusive == sh.ghosts.inconclusive +
        (if && at.revision == sh.core.revision
            && at.participants == 0
            && pc.outcome.failure.Some?
            && !Permanent(pc.outcome.failure.value)
            && !ProviderAnswered(pc.outcome.failure.value)
         then {at.revision} else {})
  {
    UnfinishedIsCurrent(sh, t, pc) by { hide *; FinishNeeds(sh, t, pc, now, sh', pc'); }
    hide Global, Local, RecordFailure, DoLogin, DoLogout, DoCommit, DoRestore, DoToken, DoJoin,
         DoGrant, DoRefusal, DoLoop, DoPersist, DoInit;
  }

  /** Histories only grow. */
  lemma {:induction false} MarksAreForever(r: Run, i: nat, j: nat)
    requires IsRun(r) && i <= j < |r.states|
    ensures At(r, i).ghosts.inconclusive <= At(r, j).ghosts.inconclusive
    ensures At(r, i).ghosts.emitted <= At(r, j).ghosts.emitted
    decreases j
  {
    hide Do, Initial;
    if i < j {
      MarksAreForever(r, i, j - 1);
      assert IsStep(r, j - 1);
      var t := r.labels[j - 1].thread;
      MarksGrow(At(r, j - 1), t, PcOf(r.states[j - 1], t), r.labels[j - 1].action, At(r, j),
                PcOf(r.states[j], t));
    }
  }

  lemma OthersLeaveMarks(sh: Shared, act: Action, sh': Shared)
    requires Untouched(sh, act, sh')
    ensures !act.FinishAttempt? ==> sh'.ghosts.inconclusive == sh.ghosts.inconclusive
    ensures !act.NextLoopAction? ==> sh'.ghosts.emitted == sh.ghosts.emitted
  {}

  lemma MarksGrow(sh: Shared, t: Thread, pc: Pc, act: Action, sh': Shared, pc': Pc)
    requires Do(sh, t, pc, act) == Some((sh', pc'))
    ensures sh.ghosts.inconclusive <= sh'.ghosts.inconclusive
    ensures sh.ghosts.emitted <= sh'.ghosts.emitted
  {
    EveryActionIsGrouped(act);
    hide *;
    StepEvent(sh, t, pc, act, sh', pc');
    Dispatch(sh, t, pc, act);
    if act.FinishAttempt? {
      FinishMarks(sh, t, pc, act.now, sh', pc');
    } else if act.NextLoopAction? {
      DecisionMarks(sh, t, pc, act.now, sh', pc');
    }
    OthersLeaveMarks(sh, act, sh');
  }

  /** Once an attempt of a revision was abandoned inconclusively, that revision is
      never refused. */
  lemma InconclusiveIsNeverRefused(r: Run, i: nat, j: nat)
    requires IsRun(r) && i <= j < |r.labels| && r.labels[j].action.InstallRefusal?
    ensures ActorPc(r, j).RefusalInstalling? && ActorPc(r, j).attempt in At(r, j).attempts
    ensures At(r, j).attempts[ActorPc(r, j).attempt].revision !in At(r, i).ghosts.inconclusive
  {
    RefusalIsJustified(r, j);
    MarksAreForever(r, i, j);
  }

  /** The supervisor claims the session-expired event of a revision at most once. */
  lemma ExpiredOncePerRevision(r: Run, i: nat, j: nat)
    requires IsRun(r) && i < j < |r.labels|
    requires Emits(r, i) && Emits(r, j)
    ensures At(r, i).core.revision < At(r, j).core.revision
  {
    hide Do, Inv, Initial, Emits;
    EmissionIsMarked(r, i);
    EmissionIsMarked(r, j);
    MarksAreForever(r, i + 1, j);
    RunRefusals(r, j);
    assert At(r, i).core.revision != At(r, j).core.revision;
  }

  ghost predicate Emits(r: Run, i: nat)
    requires IsRun(r) && i < |r.labels|
  {
    r.labels[i].action.NextLoopAction? && PcOf(r.states[i + 1], r.labels[i].thread).LoopEmitting?
  }

  lemma EmissionIsMarked(r: Run, i: nat)
    requires IsRun(r) && i < |r.labels| && Emits(r, i)
    ensures At(r, i).core.revision !in At(r, i).ghosts.emitted
    ensures At(r, i).core.revision in At(r, i + 1).ghosts.emitted
  {
    hide Initial;
    RunRefusals(r, i);
    assert IsStep(r, i);
    KeyedOf(r.states[i]);
    var t := r.labels[i].thread;
    EmittingMarks(At(r, i), t, ActorPc(r, i), r.labels[i].action.now, At(r, i + 1),
                  PcOf(r.states[i + 1], t));
  }

  lemma EmittingMarks(sh: Shared, t: Thread, pc: Pc, now: Time, sh': Shared, pc': Pc)
    requires MarksOk(sh) && G.Keyed(sh)
    requires Do(sh, t, pc, NextLoopAction(now)) == Some((sh', pc')) && pc'.LoopEmitting?
    ensures sh.core.revision !in sh.ghosts.emitted && sh.core.revision in sh'.ghosts.emitted
  {
    DecisionMarks(sh, t, pc, now, sh', pc');
    MarksFollow(sh.core, RefreshDecided(now));
    assert NextRefresh(sh.core, now).1.EmitExpired?;
    hide NextRefresh, DoLoop;
  }

  // ----- a restart cannot revive a refused session ------------------------------

  /** No credential and no timestamp is left. */
  predicate Spent(s: TokenState) {
    s.accessToken == "" && s.refreshToken == "" && s.expiresAt == 0 && s.lastAuthAt == 0
  }

  /** A Save of the refused generation that returns nil leaves it in the store. */
  lemma RefusalIsSaved(r: Run, i: nat, content: TokenState)
    requires IsRun(r) && i < |r.labels| && r.labels[i].action == SaveReturns(false, content)
    requires ActorPc(r, i).Saving? && ActorPc(r, i).who.ByRefusal?
    ensures ActorPc(r, i).who.attempt in At(r, i).attempts
    ensures At(r, i + 1).store
            == TokenState("", "", At(r, i).attempts[ActorPc(r, i).who.attempt].snapshot.idToken, 0, 0)
    ensures Spent(At(r, i + 1).store)
  {
    hide Inv, Initial;
    RunRefusals(r, i);
    assert IsStep(r, i);
    assert Fits(At(r, i), ActorPc(r, i));
  }

  ghost predicate Barren(sh: Shared) {
    && Spent(sh.core.state)
    && !sh.core.retry.valid
    && sh.attempts == map[]
    && (sh.core.restoreBlocked || Spent(sh.store))
  }

  predicate Fruitless(pc: Pc) {
    && Runs(pc).None? && WaitsOn(pc).None?
    && RefreshClaimOf(pc).None? && RetryClaimOf(pc).None?
    && !pc.Saving? && !pc.Recording? && !pc.Queueing?
    && !pc.TokenTrying? && !pc.TokenBlocking?
    && (pc.TokenRead? ==> Spent(pc.snapshot))
    && (pc.Answered? ==> pc.token == "")
    && (pc.RestoreInstalling? ==> Spent(pc.loaded))
  }

  /** Without a new Login, no step makes anything usable again. */
  lemma StaysBarren(sh: Shared, t: Thread, pc: Pc, act: Action, sh': Shared, pc': Pc)
    requires C.StoreFits(sh, pc) && C.OpFits(sh, t, pc) && A.AttemptFits(sh, t, pc)
    requires Barren(sh) && Fruitless(pc) && !act.InstallLogin?
    requires Do(sh, t, pc, act) == Some((sh', pc'))
    ensures Barren(sh') && Fruitless(pc')
  {
    EveryActionIsGrouped(act);
    hide *;
    Dispatch(sh, t, pc, act);
    match GroupOf(act)
    case TimeGroup => TickBarren(sh, sh');
    case LoginGroup => LoginBarren(sh, t, pc, act, sh', pc');
    case LogoutGroup => LogoutBarren(sh, t, pc, act, sh', pc');
    case CommitGroup => NoCommit(sh, t, pc, act);
    case RestoreGroup => RestoreBarren(sh, t, pc, act, sh', pc');
    case TokenGroup => TokenBarren(sh, t, pc, act, sh', pc');
    case JoinGroup => NoJoin(sh, t, pc, act);
    case GrantGroup => NoGrant(sh, t, pc, act);
    case RefusalGroup => NoRefusal(sh, t, pc, act);
    case CloseGroup => NoClose(sh, t, pc, act);
    case LoopGroup => LoopBarren(sh, t, pc, act, sh', pc');
    case PersistGroup => PersistBarren(sh, t, pc, act, sh', pc');
    case InitGroup => InitBarren(sh, t, pc, act, sh', pc');
  }

  lemma TickBarren(sh: Shared, sh': Shared)
    requires Barren(sh) && sh' == sh.(clock := sh'.clock)
    ensures Barren(sh')
  {}

  lemma LoginBarren(sh: Shared, t: Thread, pc: Pc, act: Action, sh': Shared, pc': Pc)
    requires Barren(sh) && Fruitless(pc) && !act.InstallLogin?
    requires DoLogin(sh, t, pc, act) == Some((sh', pc'))
    ensures Barren(sh') && Fruitless(pc')
  {
    FlowTouches(sh, t, pc, act, sh', pc');
    FlowFruitless(sh, t, pc, act, sh', pc');
    hide DoLogin, Install, Fruitless;
  }

  lemma FlowFruitless(sh: Shared, t: Thread, pc: Pc, act: Action, sh': Shared, pc': Pc)
    requires Fruitless(pc) && !act.InstallLogin? && DoLogin(sh, t, pc, act) == Some((sh', pc'))
    ensures Fruitless(pc')
  {
    EveryActionIsGrouped(act);
    hide *;
    LoginPlaces(sh, t, pc, act, sh', pc');
    LoginActions(sh, t, pc, act);
    if pc' != pc {
      OperatingIsFruitless(act, pc');
    }
  }

  lemma OperatingIsFruitless(act: Action, pc: Pc)
    requires PartOf(pc) in {Operating, Committing, Resting} && Arrives(act, PartOf(pc))
    ensures
      || Fruitless(pc) || act.InstallLogin? || act.CommitRefresh? || act.InstallRefusal?
      || act.SaveReturns? || act.RecordSaveResult?
  {}

  lemma LogoutBarren(sh: Shared, t: Thread, pc: Pc, act: Action, sh': Shared, pc': Pc)
    requires C.OpFits(sh, t, pc) && Barren(sh) && Fruitless(pc)
    requires DoLogout(sh, t, pc, act) == Some((sh', pc'))
    ensures Barren(sh') && Fruitless(pc')
  {}

  lemma NoCommit(sh: Shared, t: Thread, pc: Pc, act: Action)
    requires Fruitless(pc)
    ensures DoCommit(sh, t, pc, act).None?
  {}

  lemma RestoreBarren(sh: Shared, t: Thread, pc: Pc, act: Action, sh': Shared, pc': Pc)
    requires C.StoreFits(sh, pc) && Barren(sh) && Fruitless(pc)
    requires DoRestore(sh, t, pc, act) == Some((sh', pc'))
    ensures Barren(sh') && Fruitless(pc')
  {}

  lemma TokenBarren(sh: Shared, t: Thread, pc: Pc, act: Action, sh': Shared, pc': Pc)
    requires Barren(sh) && Fruitless(pc)
    requires DoToken(sh, t, pc, act) == Some((sh', pc'))
    ensures Barren(sh') && Fruitless(pc')
  {}

  lemma NoJoin(sh: Shared, t: Thread, pc: Pc, act: Action)
    requires Fruitless(pc)
    ensures DoJoin(sh, t, pc, act).None?
  {
    hide TryBegin;
  }

  lemma NoGrant(sh: Shared, t: Thread, pc: Pc, act: Action)
    requires Barren(sh) && Fruitless(pc)
    ensures DoGrant(sh, t, pc, act).None?
  {}

  lemma NoRefusal(sh: Shared, t: Thread, pc: Pc, act: Action)
    requires Fruitless(pc)
    ensures DoRefusal(sh, t, pc, act).None?
  {}

  lemma NoClose(sh: Shared, t: Thread, pc: Pc, act: Action)
    requires Fruitless(pc)
    ensures DoClose(sh, t, pc, act).None?
  {}

  lemma LoopBarren(sh: Shared, t: Thread, pc: Pc, act: Action, sh': Shared, pc': Pc)
    requires Barren(sh) && Fruitless(pc)
    requires DoLoop(sh, t, pc, act) == Some((sh', pc'))
    ensures Barren(sh') && Fruitless(pc')
  {}

  lemma PersistBarren(sh: Shared, t: Thread, pc: Pc, act: Action, sh': Shared, pc': Pc)
    requires Barren(sh) && Fruitless(pc)
    requires DoPersist(sh, t, pc, act) == Some((sh', pc'))
    ensures Barren(sh') && Fruitless(pc')
  {}

  lemma InitBarren(sh: Shared, t: Thread, pc: Pc, act: Action, sh': Shared, pc': Pc)
    requires Barren(sh) && Fruitless(pc)
    requires DoInit(sh, t, pc, act) == Some((sh', pc'))
    ensures Barren(sh') && Fruitless(pc')
  {}

  lemma {:induction false} RunBarren(r: Run, i: nat)
    requires IsRun(r) && i < |r.states| && Spent(At(r, 0).store)
    requires forall k :: 0 <= k < i ==> !r.labels[k].action.InstallLogin?
    ensures Barren(At(r, i)) && forall t :: Fruitless(PcOf(r.states[i], t))
  {
    if i > 0 {
      hide Do, Inv, Initial, C.CommitInv, C.OpFits, C.StoreFits, Barren, Fruitless;
      RunBarren(r, i - 1);
      C.RunCommits(r, i - 1);
      assert IsStep(r, i - 1);
      var t := r.labels[i - 1].thread;
      AttemptPart(r.states[i - 1], t);
      assert C.CommitFits(At(r, i - 1), t, PcOf(r.states[i - 1], t));
      StaysBarren(At(r, i - 1), t, PcOf(r.states[i - 1], t), r.labels[i - 1].action, At(r, i),
                  PcOf(r.states[i], t));
      forall u ensures Fruitless(PcOf(r.states[i], u)) {
        if u != t { assert Fruitless(PcOf(r.states[i - 1], u)); }
      }
    }
  }

  lemma AttemptPart(s: System, t: Thread)
    requires Inv(s)
    ensures A.AttemptFits(s.shared, t, PcOf(s, t))
  {
    assert Local(s.shared, t, PcOf(s, t));
  }

  lemma SpentIsUnusable(c: Core, now: Time)
    requires Spent(c.state)
    ensures Status(c, now) == UNUSABLE && UsableToken(c, now) == ""
  {}

  /** Run `r` refuses a session and its Save returns nil. Any later Client over that
      store -- run `later` -- is unusable at every moment, answers every AccessToken
      call with the empty string and never starts a refresh attempt, until somebody
      logs in. */
  lemma RefusalSurvivesRestart(r: Run, i: nat, content: TokenState, later: Run, j: nat)
    requires IsRun(r) && i < |r.labels| && r.labels[i].action == SaveReturns(false, content)
    requires ActorPc(r, i).Saving? && ActorPc(r, i).who.ByRefusal?
    requires IsRun(later) && At(later, 0).store == At(r, i + 1).store && j < |later.states|
    requires forall k :: 0 <= k < j ==> !later.labels[k].action.InstallLogin?
    ensures forall now: Time :: Status(At(later, j).core, now) == UNUSABLE
    ensures forall now: Time :: UsableToken(At(later, j).core, now) == ""
    ensures At(later, j).attempts == map[]
    ensures forall t :: PcOf(later.states[j], t).Answered? ==> PcOf(later.states[j], t).token == ""
  {
    RefusalIsSaved(r, i, content);
    RunBarren(later, j);
    hide Status, UsableToken, IsRun, Initial, Fruitless;
    forall now: Time
      ensures Status(At(later, j).core, now) == UNUSABLE && UsableToken(At(later, j).core, now) == ""
    {
      SpentIsUnusable(At(later, j).core, now);
    }
    forall t ensures PcOf(later.states[j], t).Answered? ==> PcOf(later.states[j], t).token == "" {
      FruitlessAnswer(PcOf(later.states[j], t));
    }
  }

  lemma FruitlessAnswer(pc: Pc)
    requires Fruitless(pc)
    ensures pc.Answered? ==> pc.token == ""
  {}
}
