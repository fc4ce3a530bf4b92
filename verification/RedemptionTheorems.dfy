/**
 Main results about the use of refresh tokens (refresh.go:362-485), for every run: once
 the token endpoint has answered with tokens, the refresh token of that generation is
 not presented again.
*/
module RedemptionTheorems {
  import opened AttemptTheorems
  import opened Base
  import opened Basics
  import opened ClientCore
  import opened CoreEvents
  import opened Errors
  import opened IntegrityTheorems
  import opened ParkingTheorems
  import opened Places
  import opened Protocol
  import opened SessionTheorems
  import opened Tokens
  import A = Attempts
  import G = Generations

  /** At step `k` the token endpoint answers the refresh token of `revision` with tokens,
      whether or not they then pass the checks: it has redeemed the refresh token. */
  ghost predicate RedeemsAt(r: Run, k: nat, revision: nat)
    requires IsRun(r) && k < |r.labels|
  {
    && r.labels[k].action.GrantSucceeds?
    && var pc := ActorPc(r, k);
       pc.Granting? && pc.attempt in At(r, k).attempts && At(r, k).attempts[pc.attempt].revision == revision
  }

  /** At step `j` an attempt of `revision` starts. */
  ghost predicate StartsAt(r: Run, j: nat, revision: nat)
    requires IsRun(r) && j < |r.labels|
  {
    At(r, j + 1).nextAttempt != At(r, j).nextAttempt && At(r, j).core.revision == revision
  }

  // ----- what follows an answer -------------------------------------------------

  /** Tokens were received, and are neither committed nor recorded as a failure yet. */
  predicate HoldsAnswer(pc: Pc) {
    || pc.GrantOk?
    || (pc.GrantFailed? && pc.failure.IntegrityFailure?)
    || (pc.Finishing? && pc.outcome.failure == Some(IntegrityFailure))
  }

  /** Attempt `a` has been launched and is past its grant. */
  ghost predicate PastGrant(s: System, a: nat) {
    a in s.shared.attempts && s.shared.attempts[a].launched && !PcOf(s, Goroutine(a)).Granting?
  }

  ghost predicate AllPastGrant(s: System, revision: nat) {
    forall b :: b in s.shared.attempts && s.shared.attempts[b].revision == revision ==> PastGrant(s, b)
  }

  /** The token of `revision` has been redeemed by attempt `a`: the generation is replaced,
      or parked, or the answer is being applied; and no other attempt can present it. */
  ghost predicate Redeemed(s: System, a: nat, revision: nat) {
    && a in s.shared.attempts && s.shared.attempts[a].revision == revision
    && AllPastGrant(s, revision)
    && (|| s.shared.core.revision > revision
        || (s.shared.core.revision == revision && Parked(s.shared.core))
        || (s.shared.core.revision == revision && HoldsAnswer(PcOf(s, Goroutine(a)))))
  }

  // ----- the grant is over ------------------------------------------------------

  lemma OnlyLaunchGrants(sh: Shared, t: Thread, pc: Pc, act: Action, sh': Shared, pc': Pc)
    requires Do(sh, t, pc, act) == Some((sh', pc')) && pc' != pc && pc'.Granting?
    ensures t.Goroutine? && t.attempt in sh.attempts && !sh.attempts[t.attempt].launched
  {
    EveryActionIsGrouped(act);
    hide *;
    StepEvent(sh, t, pc, act, sh', pc');
    Dispatch(sh, t, pc, act);
    GrantArrives(act, pc');
    match GroupOf(act)
    case GrantGroup => LaunchIsFirst(sh, t, pc, act);
    case CommitGroup => CommitGrantsNothing(sh, t, pc, act);
    case RefusalGroup => RefusalGrantsNothing(sh, t, pc, act);
    case CloseGroup => CloseGrantsNothing(sh, t, pc, act);
    case _ =>
  }

  lemma GrantArrives(act: Action, pc: Pc)
    requires pc.Granting? && Arrives(act, PartOf(pc))
    ensures
      || act.Launch? || act.GrantFails? || act.GrantSucceeds? || act.FenceFailure?
      || act.CommitRefresh? || act.CheckRefusal? || act.LoadForRefusal? || act.InstallRefusal?
      || act.FinishAttempt? || act.QueueCommitEvent?
  {}

  lemma LaunchIsFirst(sh: Shared, t: Thread, pc: Pc, act: Action)
    requires DoGrant(sh, t, pc, act).Some? && DoGrant(sh, t, pc, act).value.1.Granting?
    ensures t.Goroutine? && t.attempt in sh.attempts && !sh.attempts[t.attempt].launched
  {
    hide RefreshedState;
  }

  lemma CommitGrantsNothing(sh: Shared, t: Thread, pc: Pc, act: Action)
    ensures DoCommit(sh, t, pc, act).Some? ==> !DoCommit(sh, t, pc, act).value.1.Granting?
  {}

  lemma RefusalGrantsNothing(sh: Shared, t: Thread, pc: Pc, act: Action)
    ensures DoRefusal(sh, t, pc, act).Some? ==> !DoRefusal(sh, t, pc, act).value.1.Granting?
  {}

  lemma CloseGrantsNothing(sh: Shared, t: Thread, pc: Pc, act: Action)
    ensures DoClose(sh, t, pc, act).Some? ==> !DoClose(sh, t, pc, act).value.1.Granting?
  {}

  /** Attempts are not forgotten, and appear only by starting. */
  lemma LaunchedStays(sh: Shared, t: Thread, pc: Pc, act: Action, sh': Shared, pc': Pc, a: nat)
    requires Do(sh, t, pc, act) == Some((sh', pc'))
    requires a in sh.attempts && sh.attempts[a].launched && a < sh.nextAttempt
    ensures a in sh'.attempts && sh'.attempts[a].launched
    ensures sh'.nextAttempt == sh.nextAttempt ==> sh'.attempts.Keys == sh.attempts.Keys
  {
    EveryActionIsGrouped(act);
    hide *;
    Dispatch(sh, t, pc, act);
    if act.TryRefresh? {
      TryingLaunched(sh, t, pc, act.ctxDone, sh', pc', a);
    } else if act.CancelWait? || act.ReadOutcome? {
      LeavingLaunched(sh, t, pc, act, sh', pc', a);
    } else if act.Launch? {
      LaunchingLaunched(sh, t, pc, sh', pc', a);
    } else if act.FinishAttempt? || act.CloseComplete? {
      ClosingLaunched(sh, t, pc, act, sh', pc', a);
    } else {
      OtherActions(act);
      OtherActionsLeaveAttempts(sh, t, pc, act, sh', pc');
      SameCounts(sh, sh');
    }
  }

  lemma TryingLaunched(sh: Shared, t: Thread, pc: Pc, ctxDone: bool, sh': Shared, pc': Pc, a: nat)
    requires DoJoin(sh, t, pc, TryRefresh(ctxDone)) == Some((sh', pc'))
    requires a in sh.attempts && sh.attempts[a].launched && a < sh.nextAttempt
    ensures a in sh'.attempts && sh'.attempts[a].launched
    ensures sh'.nextAttempt == sh.nextAttempt ==> sh'.attempts.Keys == sh.attempts.Keys
  {
    A.TryEffect(sh, t, pc, ctxDone, sh', pc');
    var s := SnapshotOf(pc).value;
    A.TryBeginCases(sh, t, s.state, s.revision, if pc.LoopTrying? then pc.claim.id else 0);
    hide DoJoin, TryBegin, Admit;
  }

  lemma LeavingLaunched(sh: Shared, t: Thread, pc: Pc, act: Action, sh': Shared, pc': Pc, a: nat)
    requires (act.CancelWait? || act.ReadOutcome?) && DoJoin(sh, t, pc, act) == Some((sh', pc'))
    requires a in sh.attempts && sh.attempts[a].launched
    ensures a in sh'.attempts && sh'.attempts[a].launched
    ensures sh'.nextAttempt == sh.nextAttempt ==> sh'.attempts.Keys == sh.attempts.Keys
  {
    A.LeaveCases(sh, t, pc, act, sh', pc');
    hide DoJoin;
  }

  lemma LaunchingLaunched(sh: Shared, t: Thread, pc: Pc, sh': Shared, pc': Pc, a: nat)
    requires DoGrant(sh, t, pc, Launch) == Some((sh', pc'))
    requires a in sh.attempts && sh.attempts[a].launched
    ensures a in sh'.attempts && sh'.attempts[a].launched
    ensures sh'.nextAttempt == sh.nextAttempt ==> sh'.attempts.Keys == sh.attempts.Keys
  {}

  lemma ClosingLaunched(sh: Shared, t: Thread, pc: Pc, act: Action, sh': Shared, pc': Pc, a: nat)
    requires DoClose(sh, t, pc, act) == Some((sh', pc'))
    requires a in sh.attempts && sh.attempts[a].launched
    ensures a in sh'.attempts && sh'.attempts[a].launched
    ensures sh'.nextAttempt == sh.nextAttempt ==> sh'.attempts.Keys == sh.attempts.Keys
  {}

  /** An attempt past its grant never comes back to it. */
  lemma PastGrantStays(s: System, t: Thread, act: Action, s': System, a: nat)
    requires Inv(s) && StepTo(s, t, act) == Some(s') && PastGrant(s, a)
    ensures PastGrant(s', a)
  {
    assert A.AttemptOk(s.shared, a);
    hide Do, Local, G.Shape, A.AttemptOk;
    LaunchedStays(s.shared, t, PcOf(s, t), act, s'.shared, PcOf(s', t), a);
    if t == Goroutine(a) && PcOf(s', t).Granting? {
      OnlyLaunchGrants(s.shared, t, PcOf(s, t), act, s'.shared, PcOf(s', t));
    }
  }

  // ----- the answer is applied --------------------------------------------------

  lemma AwayFromOperations(sh: Shared, t: Thread, pc: Pc, act: Action)
    requires HoldsAnswer(pc)
    ensures DoLogin(sh, t, pc, act).None? && DoLogout(sh, t, pc, act).None?
    ensures DoCommit(sh, t, pc, act).None? && DoRestore(sh, t, pc, act).None?
  {}

  lemma AwayFromCalls(sh: Shared, t: Thread, pc: Pc, act: Action)
    requires HoldsAnswer(pc)
    ensures DoToken(sh, t, pc, act).None? && DoJoin(sh, t, pc, act).None?
    ensures DoRefusal(sh, t, pc, act).None? && DoInit(sh, t, pc, act).None?
  {}

  lemma AwayFromLoops(sh: Shared, t: Thread, pc: Pc, act: Action)
    requires HoldsAnswer(pc)
    ensures DoLoop(sh, t, pc, act).None? && DoPersist(sh, t, pc, act).None?
  {}

  /** A received answer is committed, or ends in an integrity failure, while its revision
      is current. */
  lemma AnswerIsApplied(sh: Shared, t: Thread, pc: Pc, act: Action, sh': Shared, pc': Pc)
    requires Do(sh, t, pc, act) == Some((sh', pc')) && HoldsAnswer(pc)
    requires pc.attempt in sh.attempts && sh.attempts[pc.attempt].revision == sh.core.revision
    ensures
      || HoldsAnswer(pc')
      || sh'.core.revision != sh.core.revision
      || BlockedAs(sh'.core, BlockedIntegrity)
  {
    EveryActionIsGrouped(act);
    hide *;
    Dispatch(sh, t, pc, act);
    AwayFromOperations(sh, t, pc, act);
    AwayFromCalls(sh, t, pc, act);
    AwayFromLoops(sh, t, pc, act);
    match GroupOf(act)
    case TimeGroup =>
    case GrantGroup => GrantApplies(sh, t, pc, act, sh', pc');
    case CloseGroup =>
      OnlyFinishing(sh, t, pc, act);
      FailureIsRecorded(sh, t, pc, act, sh', pc');
    case _ =>
  }

  lemma GrantApplies(sh: Shared, t: Thread, pc: Pc, act: Action, sh': Shared, pc': Pc)
    requires DoGrant(sh, t, pc, act) == Some((sh', pc')) && HoldsAnswer(pc)
    requires pc.attempt in sh.attempts && sh.attempts[pc.attempt].revision == sh.core.revision
    ensures HoldsAnswer(pc') || sh'.core.revision != sh.core.revision
  {
    hide RefreshedState;
  }

  lemma OnlyFinishing(sh: Shared, t: Thread, pc: Pc, act: Action)
    requires DoClose(sh, t, pc, act).Some? && HoldsAnswer(pc)
    requires pc.attempt in sh.attempts && sh.attempts[pc.attempt].revision == sh.core.revision
    ensures Fails(sh, pc, act)
  {}

  // ----- one step, and all steps ------------------------------------------------

  lemma GrantIsReceived(sh: Shared, t: Thread, pc: Pc, act: Action, sh': Shared, pc': Pc)
    requires Do(sh, t, pc, act) == Some((sh', pc')) && act.GrantSucceeds?
    ensures sh' == sh && pc.Granting? && HoldsAnswer(pc') && !pc'.Granting?
  {
    EveryActionIsGrouped(act);
    Dispatch(sh, t, pc, act);
    hide Do, GroupOf, RefreshedState;
  }

  /** Every other attempt has finished when the answer arrives. */
  lemma OthersArePast(s: System, t: Thread, b: nat)
    requires Inv(s) && Working(PcOf(s, t)) && t != Goroutine(b) && b in s.shared.attempts
    ensures PastGrant(s, b)
  {
    WorkerIsCurrent(s, t);
    assert A.AttemptOk(s.shared, b);
    assert Local(s.shared, Goroutine(b), PcOf(s, Goroutine(b)));
    hide G.Shape, G.Fits;
  }

  lemma AnswerRedeems(r: Run, k: nat, revision: nat) returns (a: nat)
    requires IsRun(r) && k < |r.labels| && RedeemsAt(r, k, revision)
    ensures Redeemed(r.states[k + 1], a, revision)
  {
    var t, act := r.labels[k].thread, r.labels[k].action;
    var s, s' := r.states[k], r.states[k + 1];
    a := ActorPc(r, k).attempt;
    RunInv(r, k);
    WorkerIsCurrent(s, t);
    assert A.AttemptOk(s.shared, a);
    assert Local(s.shared, t, PcOf(s, t));
    hide Do, Initial, Inv, Local, Parked, HoldsAnswer;
    StepAt(r, k);
    GrantIsReceived(s.shared, t, PcOf(s, t), act, s'.shared, PcOf(s', t));
    assert IsStep(r, k);
    forall b | b in s'.shared.attempts && s'.shared.attempts[b].revision == revision
      ensures PastGrant(s', b)
    {
      if b != a { OthersArePast(s, t, b); }
    }
  }

  lemma RevisionStays(s: System, t: Thread, act: Action, s': System, a: nat)
    requires Inv(s) && StepTo(s, t, act) == Some(s') && a in s.shared.attempts
    ensures a in s'.shared.attempts
    ensures s'.shared.attempts[a].revision == s.shared.attempts[a].revision
  {
    hide Do, Inv, Local, Global, G.Rely;
    SystemStepKeeps(s, t, act, s');
    var other := if t.Caller? then Goroutine(0) else Caller(0);
    assert Rely(other, s.shared, s'.shared);
  }

  /** While an answer is being applied, its attempt is current. */
  lemma HolderIsCurrent(s: System, a: nat)
    requires Inv(s) && a in s.shared.attempts && HoldsAnswer(PcOf(s, Goroutine(a)))
    ensures s.shared.current == Some(a) && PcOf(s, Goroutine(a)).attempt == a
  {
    WorkerIsCurrent(s, Goroutine(a));
  }

  /** With the token of `revision` redeemed, nobody can start an attempt of it or redeem
      it again. */
  lemma NotPresentedAgain(r: Run, i: nat, a: nat, revision: nat)
    requires IsRun(r) && i < |r.labels| && Redeemed(r.states[i], a, revision)
    ensures !StartsAt(r, i, revision) && !RedeemsAt(r, i, revision)
  {
    hide Do, Initial, Inv, Parked, HoldsAnswer;
    RunInv(r, i);
    var s := r.states[i];
    if StartsAt(r, i, revision) {
      NoOverlap(r, i);
      HolderIsCurrent(s, a);
      assert false;
    }
    if RedeemsAt(r, i, revision) {
      WorkerIsCurrent(s, r.labels[i].thread);
      assert false;
    }
  }

  lemma StepRedeems(r: Run, i: nat, a: nat, revision: nat)
    requires IsRun(r) && i < |r.labels| && Redeemed(r.states[i], a, revision)
    requires !UnparksAt(r, i, revision)
    ensures Redeemed(r.states[i + 1], a, revision)
  {
    hide Do, Initial, Inv, PastGrant, StartsAt, RedeemsAt, UnparksAt, Parked, HoldsAnswer;
    RunInv(r, i);
    StepAt(r, i);
    assert IsStep(r, i);
    RevisionStays(r.states[i], r.labels[i].thread, r.labels[i].action, r.states[i + 1], a);
    NotPresentedAgain(r, i, a, revision);
    StepIsPast(r, i, a, revision);
    StepSettles(r, i, a, revision);
  }

  /** An attempt that appears belongs to the revision that was current. */
  lemma NewAttempts(r: Run, i: nat, a: nat, b: nat)
    requires IsRun(r) && i < |r.labels| && PastGrant(r.states[i], a)
    requires b in At(r, i + 1).attempts && b !in At(r, i).attempts
    ensures At(r, i + 1).attempts[b].revision == At(r, i).core.revision
    ensures At(r, i + 1).nextAttempt != At(r, i).nextAttempt
  {
    RunInv(r, i);
    StepAt(r, i);
    var s, t, act := r.states[i], r.labels[i].thread, r.labels[i].action;
    assert A.AttemptOk(s.shared, a);
    assert Local(s.shared, t, PcOf(s, t));
    hide Do, Initial, Local, A.AttemptOk;
    LaunchedStays(s.shared, t, PcOf(s, t), act, At(r, i + 1), PcOf(r.states[i + 1], t), a);
    AttemptsAreBegun(s.shared, t, PcOf(s, t), act, At(r, i + 1), PcOf(r.states[i + 1], t));
  }

  lemma StepIsPast(r: Run, i: nat, a: nat, revision: nat)
    requires IsRun(r) && i < |r.labels| && Redeemed(r.states[i], a, revision)
    requires !StartsAt(r, i, revision)
    ensures AllPastGrant(r.states[i + 1], revision)
  {
    hide Do, Initial, Inv, PastGrant, UnparksAt, Parked, HoldsAnswer;
    RunInv(r, i);
    assert IsStep(r, i);
    var s, s', t, act := r.states[i], r.states[i + 1], r.labels[i].thread, r.labels[i].action;
    assert PastGrant(s, a);
    forall b | b in s'.shared.attempts && s'.shared.attempts[b].revision == revision
      ensures PastGrant(s', b)
    {
      if b !in s.shared.attempts { NewAttempts(r, i, a, b); }
      RevisionStays(s, t, act, s', b);
      PastGrantStays(s, t, act, s', b);
    }
  }

  lemma StepSettles(r: Run, i: nat, a: nat, revision: nat)
    requires IsRun(r) && i < |r.labels| && Redeemed(r.states[i], a, revision)
    requires !UnparksAt(r, i, revision)
    ensures
      var core' := At(r, i + 1).core;
      || core'.revision > revision
      || (core'.revision == revision
          && (Parked(core') || HoldsAnswer(PcOf(r.states[i + 1], Goroutine(a)))))
  {
    hide Do, Initial, Inv, PastGrant, Parked, HoldsAnswer;
    RunInv(r, i);
    StepAt(r, i);
    assert IsStep(r, i);
    RevisionsGrow(r, i, i + 1);
    var s, s', t := r.states[i], r.states[i + 1], r.labels[i].thread;
    if s'.shared.core.revision == revision {
      if Parked(s.shared.core) {
        UnparkingIsExact(r, i);
      } else if t == Goroutine(a) {
        HolderIsCurrent(s, a);
        AnswerIsApplied(s.shared, t, PcOf(s, t), r.labels[i].action, s'.shared, PcOf(s', t));
        BlockedIsParked(s'.shared.core);
      }
    }
  }

  lemma {:induction false} StaysRedeemed(r: Run, i: nat, j: nat, a: nat, revision: nat)
    requires IsRun(r) && i <= j < |r.states| && Redeemed(r.states[i], a, revision)
    requires forall m :: i <= m < j ==> !UnparksAt(r, m, revision)
    ensures Redeemed(r.states[j], a, revision)
    decreases j
  {
    hide IsStep, Initial, Redeemed, UnparksAt;
    if i < j {
      StaysRedeemed(r, i, j - 1, a, revision);
      StepRedeems(r, j - 1, a, revision);
    }
  }

  // ----- results ----------------------------------------------------------------

  /** Step `m`, strictly between `k` and `j`, un-parks the revision. */
  ghost predicate ReleasedBetween(r: Run, k: nat, j: nat, revision: nat)
    requires IsRun(r) && j < |r.states|
  {
    exists m: nat :: k < m < j && UnparksAt(r, m, revision)
  }

  /** Once the provider has redeemed the refresh token of a revision, no attempt of that
      revision starts and its token is not redeemed again, unless the un-parking release
      has happened since. */
  lemma RedeemedOnce(r: Run, k: nat, j: nat, revision: nat)
    requires IsRun(r) && k < j < |r.labels| && RedeemsAt(r, k, revision)
    requires StartsAt(r, j, revision) || RedeemsAt(r, j, revision)
    ensures ReleasedBetween(r, k, j, revision)
  {
    hide IsStep, Initial, Redeemed, UnparksAt, StartsAt, RedeemsAt;
    if !ReleasedBetween(r, k, j, revision) {
      var a := AnswerRedeems(r, k, revision);
      StaysRedeemed(r, k + 1, j, a, revision);
      NotPresentedAgain(r, j, a, revision);
    }
  }

  /** No revision has its token redeemed more than twice. */
  lemma RedeemedTwiceAtMost(r: Run, i: nat, j: nat, k: nat, revision: nat)
    requires IsRun(r) && i < j < k < |r.labels|
    requires RedeemsAt(r, i, revision) && RedeemsAt(r, j, revision)
    ensures !RedeemsAt(r, k, revision) && !StartsAt(r, k, revision)
  {
    hide IsStep, Initial, UnparksAt, StartsAt, RedeemsAt;
    if RedeemsAt(r, k, revision) || StartsAt(r, k, revision) {
      RedeemedOnce(r, i, j, revision);
      RedeemedOnce(r, j, k, revision);
      var m: nat :| i < m < j && UnparksAt(r, m, revision);
      var n: nat :| j < n < k && UnparksAt(r, n, revision);
      UnparkedOnce(r, m, n, revision);
    }
  }
}
