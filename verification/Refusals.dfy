/**
 The credential-refusal protocol (refresh.go:97-181, refresh.go:340-356): when a
 refused generation replaces the current one, and how long an inconclusive attempt
 and a session-expired emission are remembered.
*/
module Refusals {
  import opened Base
  import opened Basics
  import opened ClientCore
  import opened CoreEvents
  import opened Errors
  import opened Locks
  import opened Protocol
  import opened Tokens
  import A = Attempts
  import G = Generations

  predicate InconclusiveNow(c: Core) {
    c.schedule.valid && c.schedule.inconclusive
  }

  predicate EmittedNow(c: Core) {
    c.schedule.valid && c.schedule.eventEmitted
  }

  /** The flags of the current generation are exactly its history. */
  ghost predicate MarksOk(sh: Shared) {
    && (InconclusiveNow(sh.core) <==> sh.core.revision in sh.ghosts.inconclusive)
    && (EmittedNow(sh.core) <==> sh.core.revision in sh.ghosts.emitted)
    && (forall r :: r in sh.ghosts.inconclusive ==> r <= sh.core.revision)
    && (forall r :: r in sh.ghosts.emitted ==> r <= sh.core.revision)
  }

  /** Everything the decision to refuse rests on still holds while it is carried
      out. */
  ghost predicate RefusalFits(sh: Shared, pc: Pc) {
    pc.RefusalLoading? || pc.RefusalInstalling? ==>
      && pc.attempt in sh.attempts
      && sh.attempts[pc.attempt].revision == sh.core.revision
      && sh.core.revision !in sh.ghosts.inconclusive
      && (pc.RefusalInstalling? && !pc.loadFailed ==>
            !Superseded(sh.store, sh.attempts[pc.attempt].snapshot))
  }

  /** What is being saved after a refusal is the refused generation. */
  ghost predicate RefusedFits(sh: Shared, pc: Pc) {
    (pc.Saving? || pc.Recording? || pc.Queueing?) && pc.who.ByRefusal? ==>
      && pc.who.attempt in sh.attempts
      && sh.core.state == RefusedState(sh.attempts[pc.who.attempt].snapshot)
  }

  ghost predicate Fits(sh: Shared, pc: Pc) {
    RefusalFits(sh, pc) && RefusedFits(sh, pc)
  }

  // ----- marks follow the core --------------------------------------------------

  predicate Abandons(c: Core, e: Event) {
    && e.AttemptFailed?
    && c.revision == e.revision
    && !Permanent(e.failure) && e.abandoned && !ProviderAnswered(e.failure)
  }

  lemma MarksFollow(c: Core, e: Event)
    requires c.schedule.valid ==> c.schedule.revision == c.revision
    ensures
      var c' := Apply(c, e);
      if c'.revision != c.revision then !InconclusiveNow(c') && !EmittedNow(c')
      else
        && (InconclusiveNow(c') <==> InconclusiveNow(c) || Abandons(c, e))
        && (EmittedNow(c') <==>
              EmittedNow(c) || (e.RefreshDecided? && NextRefresh(c, e.now).1.EmitExpired?))
        && (e.RefreshDecided? && NextRefresh(c, e.now).1.EmitExpired? ==> !EmittedNow(c))
  {}

  lemma FinishMarks(sh: Shared, t: Thread, pc: Pc, now: Time, sh': Shared, pc': Pc)
    requires DoClose(sh, t, pc, FinishAttempt(now)) == Some((sh', pc'))
    ensures sh'.core.revision == sh.core.revision
    ensures sh'.ghosts.inconclusive == sh.ghosts.inconclusive
              + (if Abandons(sh.core, EffectOf(sh, pc, FinishAttempt(now))) then {sh.core.revision} else {})
  {}

  lemma DecisionMarks(sh: Shared, t: Thread, pc: Pc, now: Time, sh': Shared, pc': Pc)
    requires DoLoop(sh, t, pc, NextLoopAction(now)) == Some((sh', pc'))
    ensures sh'.core.revision == sh.core.revision
    ensures sh'.ghosts.emitted == sh.ghosts.emitted
              + (if NextRefresh(sh.core, now).1.EmitExpired? then {sh.core.revision} else {})
  {}

  /** Marks that move as the core's flags do stay exact. */
  lemma MarksKept(sh: Shared, pc: Pc, act: Action, sh': Shared)
    requires G.Keyed(sh) && MarksOk(sh) && Untouched(sh, act, sh')
    requires sh'.core == Apply(sh.core, EffectOf(sh, pc, act))
    requires act.FinishAttempt? || act.NextLoopAction? ==> sh'.core.revision == sh.core.revision
    requires act.FinishAttempt? ==>
               sh'.ghosts.inconclusive == sh.ghosts.inconclusive
                 + (if Abandons(sh.core, EffectOf(sh, pc, act)) then {sh.core.revision} else {})
    requires act.NextLoopAction? ==>
               sh'.ghosts.emitted == sh.ghosts.emitted
                 + (if NextRefresh(sh.core, act.now).1.EmitExpired? then {sh.core.revision} else {})
    ensures MarksOk(sh')
  {
    hide Apply, NextRefresh, InconclusiveNow, EmittedNow;
    var e := EffectOf(sh, pc, act);
    MarksFollow(sh.core, e);
    assert Abandons(sh.core, e) ==> act.FinishAttempt?;
    assert e.RefreshDecided? ==> act.NextLoopAction? && e.now == act.now;
  }

  lemma StepKeepsMarks(sh: Shared, t: Thread, pc: Pc, act: Action, sh': Shared, pc': Pc)
    requires G.Keyed(sh) && MarksOk(sh) && Do(sh, t, pc, act) == Some((sh', pc'))
    ensures MarksOk(sh')
  {
    EveryActionIsGrouped(act);
    StepEvent(sh, t, pc, act, sh', pc') by { hide *; }
    hide *;
    Dispatch(sh, t, pc, act);
    if act.FinishAttempt? {
      FinishMarks(sh, t, pc, act.now, sh', pc');
    } else if act.NextLoopAction? {
      DecisionMarks(sh, t, pc, act.now, sh', pc');
    }
    MarksKept(sh, pc, act, sh');
  }

  /** Only the attempt that is running can mark its generation. */
  lemma OnlyRunnerMarks(sh: Shared, t: Thread, pc: Pc, act: Action, sh': Shared, pc': Pc)
    requires Global(sh) && Local(sh, t, pc) && Do(sh, t, pc, act) == Some((sh', pc'))
    ensures sh'.ghosts.inconclusive != sh.ghosts.inconclusive ==>
              t.Goroutine? && sh.current == Some(t.attempt)
  {
    EveryActionIsGrouped(act);
    hide Do, DoLogin, DoLogout, DoCommit, DoRestore, DoToken, DoJoin, DoGrant, DoRefusal,
         DoLoop, DoPersist, DoInit, Apply, PartOf, Arrives, G.Shape, G.Fits;
    Dispatch(sh, t, pc, act);
    StepEvent(sh, t, pc, act, sh', pc');
    if act.FinishAttempt? {
      assert A.AttemptOk(sh, pc.attempt);
    }
  }

  lemma RefusalActorFits(sh: Shared, t: Thread, pc: Pc, act: Action, sh': Shared, pc': Pc)
    requires G.Keyed(sh) && MarksOk(sh) && Fits(sh, pc)
    requires DoRefusal(sh, t, pc, act) == Some((sh', pc'))
    ensures Fits(sh', pc')
  {}

  lemma CommitActorFits(sh: Shared, t: Thread, pc: Pc, act: Action, sh': Shared, pc': Pc)
    requires Fits(sh, pc) && DoCommit(sh, t, pc, act) == Some((sh', pc'))
    ensures Fits(sh', pc')
  {}

  lemma LoginActorFits(sh: Shared, t: Thread, pc: Pc, alive: bool, sh': Shared, pc': Pc)
    requires DoLogin(sh, t, pc, InstallLogin(alive)) == Some((sh', pc'))
    ensures Fits(sh', pc')
  {}

  lemma GrantActorFits(sh: Shared, t: Thread, pc: Pc, sh': Shared, pc': Pc)
    requires DoGrant(sh, t, pc, CommitRefresh) == Some((sh', pc'))
    ensures Fits(sh', pc')
  {}

  lemma TickActorFits(sh: Shared, pc: Pc, sh': Shared)
    requires Fits(sh, pc) && sh' == sh.(clock := sh'.clock)
    ensures Fits(sh', pc)
  {}

  lemma ElsewhereFits(sh: Shared, pc: Pc)
    requires !PartOf(pc).InRefusal? && !PartOf(pc).Committing?
    ensures Fits(sh, pc)
  {}

  /** The actor's own part of the invariant. */
  lemma ActorFits(sh: Shared, t: Thread, pc: Pc, act: Action, sh': Shared, pc': Pc)
    requires G.Keyed(sh) && MarksOk(sh) && Fits(sh, pc)
    requires Do(sh, t, pc, act) == Some((sh', pc'))
    ensures Fits(sh', pc')
  {
    EveryActionIsGrouped(act);
    StepEvent(sh, t, pc, act, sh', pc') by { hide *; }
    hide *;
    Dispatch(sh, t, pc, act);
    if PartOf(pc').InRefusal? || PartOf(pc').Committing? {
      if pc' == pc {
        SamePlaceFits(sh, t, pc, act, sh');
      } else {
        ArrivalsAre(act, PartOf(pc'));
        match act
        case InstallLogin(alive) => LoginActorFits(sh, t, pc, alive, sh', pc');
        case CommitRefresh => GrantActorFits(sh, t, pc, sh', pc');
        case CheckRefusal | LoadForRefusal(_) | InstallRefusal =>
          RefusalActorFits(sh, t, pc, act, sh', pc');
        case SaveReturns(_, _) | RecordSaveResult(_) => CommitActorFits(sh, t, pc, act, sh', pc');
      }
    } else {
      ElsewhereFits(sh', pc');
    }
  }

  /** A thread inside these parts that stays put has only seen time pass. */
  lemma SamePlaceFits(sh: Shared, t: Thread, pc: Pc, act: Action, sh': Shared)
    requires Fits(sh, pc) && Stays(act) && Do(sh, t, pc, act) == Some((sh', pc))
    requires PartOf(pc).InRefusal? || PartOf(pc).Committing?
    ensures Fits(sh', pc)
  {
    EveryActionIsGrouped(act);
    InsideTicks(pc) by { hide *; }
    hide *;
    Dispatch(sh, t, pc, act);
    if act.Tick? {
      TickActorFits(sh, pc, sh');
    } else {
      OnlyTicksInside(sh, t, pc, act);
    }
  }

  lemma InsideTicks(pc: Pc)
    ensures PartOf(pc).InRefusal? || PartOf(pc).Committing? ==>
              !pc.Idle? && !pc.TokenTrying? && !pc.LoopTrying?
  {}

  lemma OnlyTicksInside(sh: Shared, t: Thread, pc: Pc, act: Action)
    requires !pc.Idle? && !pc.TokenTrying? && !pc.LoopTrying?
    requires Stays(act) && !act.Tick?
    ensures Do(sh, t, pc, act).None?
  {
    hide TryBegin, DoLogin, DoCommit, DoToken, DoGrant, DoRefusal, DoClose, DoLoop, DoPersist, DoInit;
  }

  lemma ArrivalsAre(act: Action, part: Part)
    requires Arrives(act, part) && (part.InRefusal? || part.Committing?)
    ensures
      || act.InstallLogin? || act.CommitRefresh? || act.CheckRefusal? || act.LoadForRefusal?
      || act.InstallRefusal? || act.SaveReturns? || act.RecordSaveResult?
  {}

  lemma RelyKeepsRefusalFits(t: Thread, pc: Pc, sh: Shared, sh': Shared)
    requires Local(sh, t, pc) && Base.Rely(t, sh, sh') && Fits(sh, pc)
    requires PartOf(pc).InRefusal? ==> sh'.ghosts.inconclusive == sh.ghosts.inconclusive
    ensures Fits(sh', pc)
  {
    hide Local, Base.Rely;
    if PartOf(pc).InRefusal? || PartOf(pc).Committing? {
      RelyMeans(t, pc, sh, sh');
      UndisturbedFits(pc, sh, sh');
    } else {
      ElsewhereFits(sh', pc);
    }
    hide Fits, PartOf;
  }

  /** The refusal rests on the generation, the store, the attempts and the marks. */
  lemma UndisturbedFits(pc: Pc, sh: Shared, sh': Shared)
    requires Fits(sh, pc)
    requires sh'.core.state == sh.core.state && sh'.core.revision == sh.core.revision
    requires sh'.store == sh.store
    requires PartOf(pc).InRefusal? ==> sh'.ghosts.inconclusive == sh.ghosts.inconclusive
    requires forall a :: a in sh.attempts ==>
               && a in sh'.attempts
               && sh'.attempts[a].revision == sh.attempts[a].revision
               && sh'.attempts[a].snapshot == sh.attempts[a].snapshot
    ensures Fits(sh', pc)
  {}

  /** Whoever holds the commit lock sees the same state, store and attempts. */
  lemma RelyMeans(t: Thread, pc: Pc, sh: Shared, sh': Shared)
    requires Local(sh, t, pc) && Base.Rely(t, sh, sh')
    requires PartOf(pc).InRefusal? || PartOf(pc).Committing?
    ensures sh'.core.state == sh.core.state && sh'.core.revision == sh.core.revision
    ensures sh'.store == sh.store
    ensures forall a :: a in sh.attempts ==>
              && a in sh'.attempts
              && sh'.attempts[a].revision == sh.attempts[a].revision
              && sh'.attempts[a].snapshot == sh.attempts[a].snapshot
  {
    hide G.Fits, A.AttemptFits, G.RelyRefreshClaim, G.RelyRetryClaim;
  }

  ghost predicate RefusalsHold(s: System) {
    && Inv(s)
    && MarksOk(s.shared)
    && forall t :: Fits(s.shared, PcOf(s, t))
  }

  /** A goroutine inside the refusal runs the current attempt. */
  lemma RefuserIsCurrent(sh: Shared, t: Thread, pc: Pc)
    requires Global(sh) && Local(sh, t, pc) && PartOf(pc).InRefusal?
    ensures t == Goroutine(pc.attempt) && sh.current == Some(pc.attempt)
  {
    hide G.Shape, G.Fits;
    assert A.AttemptOk(sh, pc.attempt);
  }

  lemma SystemStepKeepsRefusals(s: System, t: Thread, act: Action, s': System)
    requires RefusalsHold(s) && StepTo(s, t, act) == Some(s')
    ensures RefusalsHold(s')
  {
    hide Do, Global, Local, Base.Rely, MarksOk, Fits, PartOf;
    var sh, sh', pc := s.shared, s'.shared, PcOf(s, t);
    KeyedFromGlobal(sh);
    SystemStepKeeps(s, t, act, s');
    StepKeepsMarks(sh, t, pc, act, sh', PcOf(s', t));
    OnlyRunnerMarks(sh, t, pc, act, sh', PcOf(s', t));
    ActorFits(sh, t, pc, act, sh', PcOf(s', t));
    forall u ensures Fits(sh', PcOf(s', u)) {
      if u != t {
        if PartOf(PcOf(s, u)).InRefusal? {
          RefuserIsCurrent(sh, u, PcOf(s, u));
        }
        RelyKeepsRefusalFits(u, PcOf(s, u), sh, sh');
      }
    }
  }

  lemma KeyedFromGlobal(sh: Shared)
    requires Global(sh)
    ensures G.Keyed(sh)
  {}

  lemma {:induction false} RunRefusals(r: Run, i: nat)
    requires IsRun(r) && i < |r.states|
    ensures RefusalsHold(r.states[i])
  {
    if i == 0 {
      InitialInv(r.states[0]);
    } else {
      RunRefusals(r, i - 1);
      assert IsStep(r, i - 1);
      SystemStepKeepsRefusals(r.states[i - 1], r.labels[i - 1].thread, r.labels[i - 1].action,
                              r.states[i]);
    }
  }
}
