/**
 No lost wake-ups. A supervisor sleeps on the wake channel it read together with its
 decision; if that channel is still open, deciding again before the due time would
 still mean sleeping.
*/
module Wakeups {
  import opened Basics
  import opened ClientCore
  import opened CoreEvents
  import opened Errors
  import opened Protocol
  import opened StageTimes
  import opened Tokens

  /** Everything either supervisor decides from, in normal form. */
  datatype Relevant = Relevant(
    state: TokenState,
    revision: nat,
    ready: bool,
    schedule: Schedule,
    retry: Retry,
    grace: nat)

  function RelevantOf(c: Core): Relevant {
    Relevant(c.state, c.revision, c.discovery.Some?,
             CurrentSchedule(c).(inconclusive := false),
             if RetryPending(c) then c.retry else NO_RETRY,
             c.grace)
  }

  ghost predicate Sleeps(c: Core, now: Time) {
    NextRefresh(c, now).1.WaitFor?
  }

  ghost predicate PersistSleeps(c: Core, now: Time) {
    NextPersistence(c, now).1.PersistWait?
  }

  ghost predicate SleepsUntil(c: Core, due: Time) {
    forall now: Time :: due == 0 || now < due ==> Sleeps(c, now)
  }

  ghost predicate PersistSleepsUntil(c: Core, due: Time) {
    forall now: Time :: due == 0 || now < due ==> PersistSleeps(c, now)
  }

  /** A sleeper's channel has been closed, or its decision stands. */
  ghost predicate StillAsleep(c: Core, pc: Pc) {
    match pc
    case LoopWaiting(wake, due) => wake < c.wake || (wake == c.wake && SleepsUntil(c, due))
    case PersistWaiting(wake, due) =>
      wake < c.wake || (wake == c.wake && PersistSleepsUntil(c, due))
    case _ => true
  }

  /** Whoever changes anything relevant closes the channel in the same section. */
  ghost predicate SignalsChange(c: Core, c': Core) {
    && c.wake <= c'.wake
    && (c'.wake == c.wake ==> RelevantOf(c') == RelevantOf(c))
  }

  lemma DecisionsAgree(c: Core, c': Core, now: Time)
    requires RelevantOf(c) == RelevantOf(c')
    ensures Sleeps(c, now) <==> Sleeps(c', now)
    ensures PersistSleeps(c, now) <==> PersistSleeps(c', now)
  {}

  lemma DecisionSignals(c: Core, now: Time)
    ensures SignalsChange(c, NextRefresh(c, now).0)
  {}

  lemma EventSignals(c: Core, e: Event)
    ensures SignalsChange(c, Apply(c, e))
  {
    if e.RefreshDecided? {
      DecisionSignals(c, e.now);
      hide NextRefresh;
    }
  }

  lemma SignalKeepsAsleep(c: Core, c': Core, pc: Pc)
    requires StillAsleep(c, pc) && SignalsChange(c, c')
    ensures StillAsleep(c', pc)
  {
    if c'.wake == c.wake {
      forall now: Time ensures (Sleeps(c, now) <==> Sleeps(c', now))
                            && (PersistSleeps(c, now) <==> PersistSleeps(c', now)) {
        DecisionsAgree(c, c', now);
      }
    }
  }

  /** A decision to sleep is one that stands. */
  lemma FallingAsleep(c: Core, now: Time)
    ensures
      var (c', next) := NextRefresh(c, now);
      next.WaitFor? ==> StillAsleep(c', LoopWaiting(next.wake, next.due))
  {
    var (c', next) := NextRefresh(c, now);
    if next.WaitFor? {
      forall later: Time | next.due == 0 || later < next.due ensures Sleeps(c', later) {
        if CurrentSchedule(c).claimID != 0 || !CurrentSchedule(c).disposition.Active? {
          ParkedSleeps(c, now, later);
        } else {
          ActiveSleeps(c, now, later);
        }
      }
      WakeRead(c, now);
    }
    hide NextRefresh, CurrentSchedule;
  }

  lemma WakeRead(c: Core, now: Time)
    ensures NextRefresh(c, now).1.WaitFor? ==> NextRefresh(c, now).1.wake == NextRefresh(c, now).0.wake
  {}

  lemma ParkedSleeps(c: Core, now: Time, later: Time)
    requires CurrentSchedule(c).claimID != 0 || !CurrentSchedule(c).disposition.Active?
    requires NextRefresh(c, now).1.WaitFor?
    requires NextRefresh(c, now).1.due == 0 || later < NextRefresh(c, now).1.due
    ensures Sleeps(NextRefresh(c, now).0, later)
  {}

  lemma ActiveSleeps(c: Core, now: Time, later: Time)
    requires CurrentSchedule(c).claimID == 0 && CurrentSchedule(c).disposition.Active?
    requires NextRefresh(c, now).1.WaitFor?
    requires NextRefresh(c, now).1.due == 0 || later < NextRefresh(c, now).1.due
    ensures Sleeps(NextRefresh(c, now).0, later)
  {
    hide StageTime;
  }

  lemma PersistFallingAsleep(c: Core, now: Time)
    ensures
      var (c', next) := NextPersistence(c, now);
      next.PersistWait? ==> StillAsleep(c', PersistWaiting(next.wake, next.due))
  {
    var (c', next) := NextPersistence(c, now);
    if next.PersistWait? {
      forall later: Time | next.due == 0 || later < next.due ensures PersistSleeps(c', later) {}
    }
  }

  lemma LoopDecided(sh: Shared, t: Thread, pc: Pc, now: Time, sh': Shared, pc': Pc)
    requires DoLoop(sh, t, pc, NextLoopAction(now)) == Some((sh', pc')) && PartOf(pc').Sleeping?
    ensures StillAsleep(sh'.core, pc')
  {
    FallingAsleep(sh.core, now);
  }

  lemma PersistDecided(sh: Shared, t: Thread, pc: Pc, now: Time, sh': Shared, pc': Pc)
    requires DoPersist(sh, t, pc, NextPersistAction(now)) == Some((sh', pc')) && PartOf(pc').Sleeping?
    ensures StillAsleep(sh'.core, pc')
  {
    PersistFallingAsleep(sh.core, now);
  }

  lemma SleepersArrive(act: Action, pc: Pc)
    requires PartOf(pc).Sleeping? && Arrives(act, PartOf(pc))
    ensures act.NextLoopAction? || act.NextPersistAction?
  {}

  lemma AwakeIsFine(c: Core, pc: Pc)
    requires !PartOf(pc).Sleeping?
    ensures StillAsleep(c, pc)
  {}

  lemma ActorAsleep(sh: Shared, t: Thread, pc: Pc, act: Action, sh': Shared, pc': Pc)
    requires StillAsleep(sh.core, pc) && Do(sh, t, pc, act) == Some((sh', pc'))
    ensures SignalsChange(sh.core, sh'.core)
    ensures StillAsleep(sh'.core, pc')
  {
    EveryActionIsGrouped(act);
    StepEvent(sh, t, pc, act, sh', pc') by { hide *; }
    EventSignals(sh.core, EffectOf(sh, pc, act)) by { hide *; }
    hide *;
    Dispatch(sh, t, pc, act);
    if pc' == pc {
      SignalKeepsAsleep(sh.core, sh'.core, pc);
    } else if PartOf(pc').Sleeping? {
      SleepersArrive(act, pc');
      match act
      case NextLoopAction(now) => LoopDecided(sh, t, pc, now, sh', pc');
      case NextPersistAction(now) => PersistDecided(sh, t, pc, now, sh', pc');
    } else {
      AwakeIsFine(sh'.core, pc');
    }
  }

  ghost predicate AllAsleep(s: System) {
    forall t :: StillAsleep(s.shared.core, PcOf(s, t))
  }

  lemma StepKeepsAsleep(s: System, t: Thread, act: Action, s': System)
    requires AllAsleep(s) && StepTo(s, t, act) == Some(s')
    ensures AllAsleep(s')
  {
    hide Do, StillAsleep, SignalsChange;
    ActorAsleep(s.shared, t, PcOf(s, t), act, s'.shared, PcOf(s', t));
    forall u ensures StillAsleep(s'.shared.core, PcOf(s', u)) {
      if u != t {
        SignalKeepsAsleep(s.shared.core, s'.shared.core, PcOf(s, u));
      }
    }
  }

  /** In every run, a waiting supervisor either has a closed channel or would decide
      to wait again at every moment before its due time. */
  lemma {:induction false} NoLostWakeup(r: Run, i: nat)
    requires IsRun(r) && i < |r.states|
    ensures AllAsleep(r.states[i])
  {
    if i > 0 {
      NoLostWakeup(r, i - 1);
      assert IsStep(r, i - 1);
      StepKeepsAsleep(r.states[i - 1], r.labels[i - 1].thread, r.labels[i - 1].action, r.states[i]);
    }
  }
}
