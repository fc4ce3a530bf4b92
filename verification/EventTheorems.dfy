/**
 Main results about events (events.go, and the commits that queue them), for every run:
 which generation a token-state event reports, and in which order events are queued.
*/
module EventTheorems {
  import opened Base
  import opened Basics
  import opened ClientCore
  import opened CoreEvents
  import opened Places
  import opened Protocol
  import opened SessionTheorems
  import opened Tokens
  import Commits
  import Events
  import G = Generations
  import GrantTheorems
  import L = Locks

  // ----- order ------------------------------------------------------------------

  /** Token-state events are queued in the order of the generations they report, and none
      reports a generation that is not there yet. */
  lemma EventsFollowGenerations(r: Run, i: nat)
    requires IsRun(r) && i < |r.states|
    ensures
      var log := At(r, i).ghosts.log;
      && (forall m, n :: 0 <= m < n < |log| && log[m].reports.Some? && log[n].reports.Some? ==>
            log[m].reports.value <= log[n].reports.value)
      && (forall e :: e in log && e.reports.Some? ==> e.reports.value <= At(r, i).core.revision)
  {
    Commits.RunCommits(r, i);
  }

  // ----- from a commit to its event ---------------------------------------------

  /** What a thread between its commit and the event will report: the revision it
      committed, carried from there. */
  function ReportOf(pc: Pc): Option<LogEntry> {
    match pc
    case Saving(who, revision) => Some(LogEntry(EventOf(who), Some(revision)))
    case Recording(who, revision, _) => Some(LogEntry(EventOf(who), Some(revision)))
    case Queueing(who, revision) => Some(LogEntry(EventOf(who), Some(revision)))
    case LogoutDeleting(_, revision) => Some(LogEntry(Events.LoggedOut, Some(revision)))
    case LogoutQueueing(_, revision) => Some(LogEntry(Events.LoggedOut, Some(revision)))
    case _ => None
  }

  /** The commit that an event reports. */
  predicate IsCommitOf(act: Action, event: Events.EventName) {
    match event
    case LoggedIn => act.InstallLogin?
    case LoggedOut => act.ClearState?
    case TokenRefreshed => act.CommitRefresh?
    case SessionExpired => act.InstallRefusal?
    case InitFailed => false
  }

  function TokenEvents(log: seq<LogEntry>): seq<LogEntry> {
    if log == [] then []
    else
      var last := log[|log| - 1];
      TokenEvents(log[..|log| - 1]) + (if last.reports.Some? then [last] else [])
  }

  /** Nothing that concerns the commit lock's owner has changed. */
  ghost predicate Still(sh: Shared, sh': Shared) {
    && sh'.core.state == sh.core.state
    && sh'.core.revision == sh.core.revision
    && TokenEvents(sh'.ghosts.log) == TokenEvents(sh.ghosts.log)
  }

  lemma TokenEventsExtend(log: seq<LogEntry>, e: LogEntry)
    ensures TokenEvents(log + [e]) == TokenEvents(log) + (if e.reports.Some? then [e] else [])
  {
    assert (log + [e])[..|log|] == log;
  }

  // ----- one step ---------------------------------------------------------------

  /** What a step queues: the failure of an Init, the event of the actor's own commit
      while it still holds the commit lock, or the expiry the supervisor has claimed,
      with the commit lock free and its revision current. */
  ghost predicate Queues(sh: Shared, t: Thread, pc: Pc, act: Action, e: LogEntry) {
    || (act.FailInit? && e == LogEntry(Events.InitFailed, None))
    || (&& (act.QueueCommitEvent? || act.QueueLoggedOut?)
        && sh.commitMu == Some(t) && ReportOf(pc) == Some(e))
    || (&& act.EmitIfCurrent? && sh.commitMu.None?
        && pc == LoopEmitting(sh.core.revision)
        && e == LogEntry(Events.SessionExpired, Some(sh.core.revision)))
  }

  /** The step has nothing to report: it ends no commit and no failed Init, and an expiry that
      a supervisor claimed belongs to a generation that has been replaced. */
  predicate Silent(sh: Shared, pc: Pc, act: Action) {
    && !act.QueueCommitEvent? && !act.QueueLoggedOut? && !act.FailInit?
    && (act.EmitIfCurrent? ==> pc.LoopEmitting? && pc.revision != sh.core.revision)
  }

  lemma LogStep(sh: Shared, t: Thread, pc: Pc, act: Action, sh': Shared, pc': Pc)
    requires L.LocksFit(sh, t, pc) && Do(sh, t, pc, act) == Some((sh', pc'))
    ensures
      || (sh'.ghosts.log == sh.ghosts.log && Silent(sh, pc, act))
      || exists e :: Queues(sh, t, pc, act, e) && sh'.ghosts.log == sh.ghosts.log + [e]
  {
    EveryActionIsGrouped(act);
    hide *;
    StepEvent(sh, t, pc, act, sh', pc');
    Dispatch(sh, t, pc, act);
    if act.QueueCommitEvent? {
      CommitLogs(sh, t, pc, sh', pc');
    } else if act.QueueLoggedOut? {
      LogoutLogs(sh, t, pc, sh', pc');
    } else if act.EmitIfCurrent? {
      ExpiryLogs(sh, t, pc, sh', pc');
    } else if act.FailInit? {
      InitLogs(sh, t, pc, act, sh', pc');
    } else {
      LogUntouched(sh, act, sh');
    }
  }

  lemma LogUntouched(sh: Shared, act: Action, sh': Shared)
    requires Untouched(sh, act, sh')
    requires !act.QueueLoggedOut? && !act.QueueCommitEvent? && !act.EmitIfCurrent? && !act.FailInit?
    ensures sh'.ghosts.log == sh.ghosts.log
    ensures forall pc :: Silent(sh, pc, act)
  {}

  lemma CommitLogs(sh: Shared, t: Thread, pc: Pc, sh': Shared, pc': Pc)
    requires L.LocksFit(sh, t, pc) && DoCommit(sh, t, pc, QueueCommitEvent) == Some((sh', pc'))
    ensures ReportOf(pc).Some? && Queues(sh, t, pc, QueueCommitEvent, ReportOf(pc).value)
    ensures sh'.ghosts.log == sh.ghosts.log + [ReportOf(pc).value]
  {}

  lemma LogoutLogs(sh: Shared, t: Thread, pc: Pc, sh': Shared, pc': Pc)
    requires L.LocksFit(sh, t, pc) && DoLogout(sh, t, pc, QueueLoggedOut) == Some((sh', pc'))
    ensures ReportOf(pc).Some? && Queues(sh, t, pc, QueueLoggedOut, ReportOf(pc).value)
    ensures sh'.ghosts.log == sh.ghosts.log + [ReportOf(pc).value]
  {}

  lemma ExpiryLogs(sh: Shared, t: Thread, pc: Pc, sh': Shared, pc': Pc)
    requires DoLoop(sh, t, pc, EmitIfCurrent) == Some((sh', pc'))
    ensures
      var e := LogEntry(Events.SessionExpired, Some(sh.core.revision));
      || (sh'.ghosts.log == sh.ghosts.log && Silent(sh, pc, EmitIfCurrent))
      || (Queues(sh, t, pc, EmitIfCurrent, e) && sh'.ghosts.log == sh.ghosts.log + [e])
  {}

  lemma InitLogs(sh: Shared, t: Thread, pc: Pc, act: Action, sh': Shared, pc': Pc)
    requires act.FailInit? && DoInit(sh, t, pc, act) == Some((sh', pc'))
    ensures
      var e := LogEntry(Events.InitFailed, None);
      Queues(sh, t, pc, act, e) && sh'.ghosts.log == sh.ghosts.log + [e]
  {}

  /** A thread that is about to report keeps what it reports, or has just committed it. */
  lemma ActorReports(sh: Shared, t: Thread, pc: Pc, act: Action, sh': Shared, pc': Pc)
    requires L.LocksFit(sh, t, pc) && Do(sh, t, pc, act) == Some((sh', pc')) && ReportOf(pc').Some?
    ensures if ReportOf(pc).Some? then ReportOf(pc') == ReportOf(pc) && Still(sh, sh')
            else
              && IsCommitOf(act, ReportOf(pc').value.event)
              && ReportOf(pc').value.reports == Some(sh'.core.revision)
  {
    EveryActionIsGrouped(act);
    hide *;
    Dispatch(sh, t, pc, act);
    match GroupOf(act)
    case TimeGroup => TickStill(sh, sh');
    case LoginGroup => LoginReports(sh, t, pc, act, sh', pc');
    case LogoutGroup => LogoutReports(sh, t, pc, act, sh', pc');
    case CommitGroup => CommitReports(sh, t, pc, act, sh', pc');
    case GrantGroup => GrantReports(sh, t, pc, act, sh', pc');
    case RefusalGroup => RefusalReports(sh, t, pc, act, sh', pc');
    case RestoreGroup => RestoreReports(sh, t, pc, act);
    case TokenGroup => TokenReports(sh, t, pc, act);
    case JoinGroup => JoinReports(sh, t, pc, act);
    case CloseGroup => CloseReports(sh, t, pc, act);
    case LoopGroup => LoopReports(sh, t, pc, act);
    case PersistGroup => PersistReports(sh, t, pc, act);
    case InitGroup => InitReports(sh, t, pc, act);
  }

  lemma TickStill(sh: Shared, sh': Shared)
    requires sh' == sh.(clock := sh'.clock)
    ensures Still(sh, sh')
  {}

  lemma LoginReports(sh: Shared, t: Thread, pc: Pc, act: Action, sh': Shared, pc': Pc)
    requires DoLogin(sh, t, pc, act) == Some((sh', pc')) && ReportOf(pc').Some?
    ensures if ReportOf(pc).Some? then ReportOf(pc') == ReportOf(pc) && Still(sh, sh')
            else
              && IsCommitOf(act, ReportOf(pc').value.event)
              && ReportOf(pc').value.reports == Some(sh'.core.revision)
  {}

  lemma LogoutReports(sh: Shared, t: Thread, pc: Pc, act: Action, sh': Shared, pc': Pc)
    requires DoLogout(sh, t, pc, act) == Some((sh', pc')) && ReportOf(pc').Some?
    ensures if ReportOf(pc).Some? then ReportOf(pc') == ReportOf(pc) && Still(sh, sh')
            else
              && IsCommitOf(act, ReportOf(pc').value.event)
              && ReportOf(pc').value.reports == Some(sh'.core.revision)
  {}

  lemma CommitReports(sh: Shared, t: Thread, pc: Pc, act: Action, sh': Shared, pc': Pc)
    requires DoCommit(sh, t, pc, act) == Some((sh', pc')) && ReportOf(pc').Some?
    ensures if ReportOf(pc).Some? then ReportOf(pc') == ReportOf(pc) && Still(sh, sh')
            else
              && IsCommitOf(act, ReportOf(pc').value.event)
              && ReportOf(pc').value.reports == Some(sh'.core.revision)
  {}

  lemma GrantReports(sh: Shared, t: Thread, pc: Pc, act: Action, sh': Shared, pc': Pc)
    requires DoGrant(sh, t, pc, act) == Some((sh', pc')) && ReportOf(pc').Some?
    ensures if ReportOf(pc).Some? then ReportOf(pc') == ReportOf(pc) && Still(sh, sh')
            else
              && IsCommitOf(act, ReportOf(pc').value.event)
              && ReportOf(pc').value.reports == Some(sh'.core.revision)
  {
    hide RefreshedState;
  }

  lemma RefusalReports(sh: Shared, t: Thread, pc: Pc, act: Action, sh': Shared, pc': Pc)
    requires DoRefusal(sh, t, pc, act) == Some((sh', pc')) && ReportOf(pc').Some?
    ensures if ReportOf(pc).Some? then ReportOf(pc') == ReportOf(pc) && Still(sh, sh')
            else
              && IsCommitOf(act, ReportOf(pc').value.event)
              && ReportOf(pc').value.reports == Some(sh'.core.revision)
  {}

  lemma RestoreReports(sh: Shared, t: Thread, pc: Pc, act: Action)
    ensures DoRestore(sh, t, pc, act).Some? ==> ReportOf(DoRestore(sh, t, pc, act).value.1).None?
  {}

  lemma TokenReports(sh: Shared, t: Thread, pc: Pc, act: Action)
    ensures DoToken(sh, t, pc, act).Some? ==> ReportOf(DoToken(sh, t, pc, act).value.1).None?
  {}

  lemma JoinReports(sh: Shared, t: Thread, pc: Pc, act: Action)
    ensures DoJoin(sh, t, pc, act).Some? ==> ReportOf(DoJoin(sh, t, pc, act).value.1).None?
  {
    hide TryBegin;
  }

  lemma CloseReports(sh: Shared, t: Thread, pc: Pc, act: Action)
    ensures DoClose(sh, t, pc, act).Some? ==> ReportOf(DoClose(sh, t, pc, act).value.1).None?
  {
    hide RecordFailure;
  }

  lemma LoopReports(sh: Shared, t: Thread, pc: Pc, act: Action)
    ensures DoLoop(sh, t, pc, act).Some? ==> ReportOf(DoLoop(sh, t, pc, act).value.1).None?
  {
    hide NextRefresh, FinishClaim;
  }

  lemma PersistReports(sh: Shared, t: Thread, pc: Pc, act: Action)
    ensures DoPersist(sh, t, pc, act).Some? ==> ReportOf(DoPersist(sh, t, pc, act).value.1).None?
  {
    hide NextPersistence, FinishRetry;
  }

  lemma InitReports(sh: Shared, t: Thread, pc: Pc, act: Action)
    ensures DoInit(sh, t, pc, act).Some? ==> ReportOf(DoInit(sh, t, pc, act).value.1).None?
  {}

  // ----- while others run -------------------------------------------------------

  lemma ReporterHoldsCommit(s: System, t: Thread)
    requires Inv(s) && ReportOf(PcOf(s, t)).Some?
    ensures s.shared.commitMu == Some(t)
  {
    assert Local(s.shared, t, PcOf(s, t));
  }

  lemma LocksOf(s: System, t: Thread)
    requires Inv(s)
    ensures L.LocksFit(s.shared, t, PcOf(s, t))
  {
    assert Local(s.shared, t, PcOf(s, t));
  }

  /** Between a commit and its event, nobody else changes the generation or queues a
      token-state event. */
  lemma OthersKeepStill(s: System, u: Thread, act: Action, s': System, t: Thread)
    requires Inv(s) && StepTo(s, u, act) == Some(s') && u != t && ReportOf(PcOf(s, t)).Some?
    ensures PcOf(s', t) == PcOf(s, t) && Still(s.shared, s'.shared)
  {
    hide Do, Inv, Global, Local, ReportOf, G.RelyHistory, TokenEvents;
    SystemStepKeeps(s, u, act, s');
    ReporterHoldsCommit(s, t);
    LocksOf(s, u);
    RelyStill(t, s.shared, s'.shared);
    LogStep(s.shared, u, PcOf(s, u), act, s'.shared, PcOf(s', u));
    if s'.shared.ghosts.log != s.shared.ghosts.log {
      var e :| Queues(s.shared, u, PcOf(s, u), act, e)
               && s'.shared.ghosts.log == s.shared.ghosts.log + [e];
      TokenEventsExtend(s.shared.ghosts.log, e);
    }
  }

  lemma RelyStill(t: Thread, sh: Shared, sh': Shared)
    requires Rely(t, sh, sh') && sh.commitMu == Some(t)
    ensures sh'.core.state == sh.core.state && sh'.core.revision == sh.core.revision
  {}

  // ----- main results -----------------------------------------------------------

  /** At step `k` thread `t` committed what `e` reports, and from then on up to state `i`
      it has been carrying that report while the generation stood still and nobody
      queued a token-state event. */
  ghost predicate CommittedAt(r: Run, k: nat, i: nat, t: Thread, e: LogEntry)
    requires IsRun(r) && i < |r.states|
  {
    && k < i
    && r.labels[k].thread == t && IsCommitOf(r.labels[k].action, e.event)
    && e.reports == Some(At(r, k + 1).core.revision)
    && forall m :: k < m <= i ==>
         ReportOf(PcOf(r.states[m], t)) == Some(e) && Still(At(r, k + 1), At(r, m))
  }

  /** Whoever is about to report a generation has committed exactly that one, and it is
      still the current one. */
  lemma {:induction false} CommitBehind(r: Run, i: nat, t: Thread)
    requires IsRun(r) && i < |r.states| && ReportOf(PcOf(r.states[i], t)).Some?
    ensures exists k: nat :: CommittedAt(r, k, i, t, ReportOf(PcOf(r.states[i], t)).value)
  {
    hide Do, Inv, Initial, ReportOf, Still, IsCommitOf;
    var e := ReportOf(PcOf(r.states[i], t)).value;
    GrantTheorems.StartsIdle(r);
    NothingAtRest();
    RunInv(r, i - 1);
    assert IsStep(r, i - 1);
    var s, s', u, act := r.states[i - 1], r.states[i], r.labels[i - 1].thread, r.labels[i - 1].action;
    LocksOf(s, t);
    if u == t {
      ActorReports(s.shared, t, PcOf(s, t), act, s'.shared, PcOf(s', t));
    } else {
      assert PcOf(s', t) == PcOf(s, t);
      OthersKeepStill(s, u, act, s', t);
    }
    if ReportOf(PcOf(s, t)).Some? {
      CommitBehind(r, i - 1, t);
      var k: nat :| CommittedAt(r, k, i - 1, t, e);
      StillOn(At(r, k + 1), s.shared, s'.shared);
      assert CommittedAt(r, k, i, t, e);
    } else {
      StillHere(s'.shared);
      assert CommittedAt(r, i - 1, i, t, e);
    }
  }

  lemma NothingAtRest()
    ensures ReportOf(Idle).None?
  {}

  lemma StillHere(sh: Shared)
    ensures Still(sh, sh)
  {}

  lemma StillOn(a: Shared, b: Shared, c: Shared)
    requires Still(a, b) && Still(b, c)
    ensures Still(a, c)
  {}

  /** At step `k` thread `t` claimed the expiry of `revision`, which was current. */
  ghost predicate ClaimedExpiry(r: Run, k: nat, i: nat, t: Thread, revision: nat)
    requires IsRun(r) && i < |r.states|
  {
    && k < i
    && r.labels[k].thread == t && r.labels[k].action.NextLoopAction?
    && At(r, k).core.revision == revision
  }

  lemma {:induction false} ClaimBehind(r: Run, i: nat, t: Thread)
    requires IsRun(r) && i < |r.states| && PcOf(r.states[i], t).LoopEmitting?
    ensures exists k: nat :: ClaimedExpiry(r, k, i, t, PcOf(r.states[i], t).revision)
  {
    hide Do, Initial;
    GrantTheorems.StartsIdle(r);
    assert IsStep(r, i - 1);
    var s, s', u, act := r.states[i - 1], r.states[i], r.labels[i - 1].thread, r.labels[i - 1].action;
    if PcOf(s, t) == PcOf(s', t) {
      ClaimBehind(r, i - 1, t);
      var k: nat :| ClaimedExpiry(r, k, i - 1, t, PcOf(s, t).revision);
      assert ClaimedExpiry(r, k, i, t, PcOf(s', t).revision);
    } else {
      ClaimsExpiry(s.shared, t, PcOf(s, t), act, s'.shared, PcOf(s', t));
      assert ClaimedExpiry(r, i - 1, i, t, PcOf(s', t).revision);
    }
  }

  lemma ClaimsExpiry(sh: Shared, t: Thread, pc: Pc, act: Action, sh': Shared, pc': Pc)
    requires Do(sh, t, pc, act) == Some((sh', pc')) && pc'.LoopEmitting? && pc' != pc
    ensures act.NextLoopAction? && pc'.revision == sh.core.revision
  {
    EveryActionIsGrouped(act);
    hide *;
    Dispatch(sh, t, pc, act);
    StepEvent(sh, t, pc, act, sh', pc');
    SupervisorsArrive(act, pc');
    LoopClaims(sh, t, pc, act, sh', pc');
  }

  lemma SupervisorsArrive(act: Action, pc: Pc)
    requires pc.LoopEmitting? && Arrives(act, PartOf(pc))
    ensures
      || act.StartLoop? || act.NextLoopAction? || act.WakeLoop? || act.FinishLoopAttempt?
      || act.EmitIfCurrent?
  {}

  lemma LoopClaims(sh: Shared, t: Thread, pc: Pc, act: Action, sh': Shared, pc': Pc)
    requires DoLoop(sh, t, pc, act) == Some((sh', pc')) && pc'.LoopEmitting? && pc' != pc
    ensures act.NextLoopAction? && pc'.revision == sh.core.revision
  {
    hide FinishClaim;
  }

  /** Every event is exact: a step queues nothing, or one event. A token-state event
      reports the current generation -- the one its own commit installed, with nothing in
      between, or the one whose expiry the supervisor claimed and which is still current.
      Every commit and every failed Init queues its event, and so does every claimed expiry
      whose generation is still current. */
  lemma EventsAreExact(r: Run, i: nat)
    requires IsRun(r) && i < |r.labels|
    ensures
      var log, log', act := At(r, i).ghosts.log, At(r, i + 1).ghosts.log, r.labels[i].action;
      || (log' == log && Silent(At(r, i), ActorPc(r, i), act))
      || (log' == log + [LogEntry(Events.InitFailed, None)] && act.FailInit?)
      || exists e ::
           && log' == log + [e] && e.reports == Some(At(r, i).core.revision)
           && IsExact(r, i, e)
  {
    hide Do, Inv, Initial, ReportOf, Still, IsCommitOf, CommittedAt, ClaimedExpiry;
    RunInv(r, i);
    assert IsStep(r, i);
    var t, act := r.labels[i].thread, r.labels[i].action;
    var pc := PcOf(r.states[i], t);
    LocksOf(r.states[i], t);
    LogStep(At(r, i), t, pc, act, At(r, i + 1), PcOf(r.states[i + 1], t));
    if At(r, i + 1).ghosts.log != At(r, i).ghosts.log || !Silent(At(r, i), pc, act) {
      var e :| Queues(At(r, i), t, pc, act, e)
               && At(r, i + 1).ghosts.log == At(r, i).ghosts.log + [e];
      if act.EmitIfCurrent? {
        ClaimBehind(r, i, t);
      } else if !act.FailInit? {
        CommitBehind(r, i, t);
        var k: nat :| CommittedAt(r, k, i, t, e);
        ReportsCurrent(r, k, i, t, e);
      }
    }
  }

  ghost predicate IsExact(r: Run, i: nat, e: LogEntry)
    requires IsRun(r) && i < |r.labels|
  {
    || (exists k: nat :: CommittedAt(r, k, i, r.labels[i].thread, e))
    || (&& e.event == Events.SessionExpired && r.labels[i].action.EmitIfCurrent?
        && exists k: nat :: ClaimedExpiry(r, k, i, r.labels[i].thread, At(r, i).core.revision))
  }

  lemma ReportsCurrent(r: Run, k: nat, i: nat, t: Thread, e: LogEntry)
    requires IsRun(r) && i < |r.labels| && CommittedAt(r, k, i, t, e)
    ensures e.reports == Some(At(r, i).core.revision)
  {
    assert Still(At(r, k + 1), At(r, i));
  }
}
