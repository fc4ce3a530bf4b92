/**
 The spacing of persistence retries (persistence.go) and the fence of Init commits
 (client.go:402-474).
*/
module Retries {
  import opened Basics
  import opened ClientCore
  import opened CoreEvents
  import opened Protocol
  import opened StageTimes
  import opened Tokens

  /** The dirty mark counts the failures of this generation since its last successful
      Save, and its due time is the capped delay after the last of them. */
  ghost predicate SpacingOk(sh: Shared) {
    sh.core.retry.valid ==>
      && sh.core.retry.failures == sh.ghosts.saveFailures >= 1
      && sh.core.retry.retryAt == sh.ghosts.lastSaveFailure + RetryDelay(sh.ghosts.saveFailures)
  }

  /** Init operations commit in admission order, each as the newest admitted. */
  ghost predicate InitOk(sh: Shared) {
    && (sh.initOperation.Some? ==> sh.initOperation.value == sh.initSeq)
    && (forall id :: id in sh.ghosts.initCommits ==>
          id <= sh.initSeq && sh.initOperation != Some(id))
    && (forall i, j :: 0 <= i < j < |sh.ghosts.initCommits| ==>
          sh.ghosts.initCommits[i] < sh.ghosts.initCommits[j])
  }

  /** Sections that record no Save leave the dirty mark's count and due time alone. */
  lemma EventSpacing(c: Core, e: Event)
    requires !e.SaveRecorded? && !e.RetryFinished?
    ensures Apply(c, e).retry.valid ==>
              && c.retry.valid
              && Apply(c, e).retry.failures == c.retry.failures
              && Apply(c, e).retry.retryAt == c.retry.retryAt
  {}

  lemma RecordSpacing(sh: Shared, t: Thread, pc: Pc, now: Time, sh': Shared, pc': Pc)
    requires SpacingOk(sh) && DoCommit(sh, t, pc, RecordSaveResult(now)) == Some((sh', pc'))
    ensures SpacingOk(sh')
  {}

  lemma RetrySpacing(sh: Shared, t: Thread, pc: Pc, now: Time, sh': Shared, pc': Pc)
    requires SpacingOk(sh) && DoPersist(sh, t, pc, FinishRetrySave(now)) == Some((sh', pc'))
    ensures SpacingOk(sh')
  {}

  lemma InitSteps(sh: Shared, t: Thread, pc: Pc, act: Action, sh': Shared, pc': Pc)
    requires InitOk(sh) && DoInit(sh, t, pc, act) == Some((sh', pc'))
    ensures InitOk(sh')
  {
    var before, after := sh.ghosts.initCommits, sh'.ghosts.initCommits;
    forall i, j | 0 <= i < j < |after| ensures after[i] < after[j] {
      assert after[i] in before;
    }
  }

  lemma OtherEffects(sh: Shared, pc: Pc, act: Action)
    requires !act.RecordSaveResult? && !act.FinishRetrySave?
    ensures !EffectOf(sh, pc, act).SaveRecorded? && !EffectOf(sh, pc, act).RetryFinished?
  {}

  lemma StepKeepsRetries(sh: Shared, t: Thread, pc: Pc, act: Action, sh': Shared, pc': Pc)
    requires SpacingOk(sh) && InitOk(sh) && Do(sh, t, pc, act) == Some((sh', pc'))
    ensures SpacingOk(sh') && InitOk(sh')
  {
    EveryActionIsGrouped(act);
    StepEvent(sh, t, pc, act, sh', pc') by { hide *; }
    UntouchedKeeps(sh, pc, act, sh') by { hide *; }
    hide *;
    Dispatch(sh, t, pc, act);
    match act
    case RecordSaveResult(now) => RecordSpacing(sh, t, pc, now, sh', pc');
    case FinishRetrySave(now) => RetrySpacing(sh, t, pc, now, sh', pc');
    case BeginInit | CommitInit(_, _) | FailInit(_) | FinishInit =>
      InitSteps(sh, t, pc, act, sh', pc');
    case _ =>
  }

  /** Steps that record no Save, or belong to no Init, keep what they do not touch. */
  lemma UntouchedKeeps(sh: Shared, pc: Pc, act: Action, sh': Shared)
    requires SpacingOk(sh) && InitOk(sh) && Untouched(sh, act, sh')
    requires sh'.core == Apply(sh.core, EffectOf(sh, pc, act))
    ensures act.RecordSaveResult? || act.FinishRetrySave? || SpacingOk(sh')
    ensures act.BeginInit? || act.CommitInit? || act.FailInit? || act.FinishInit? || InitOk(sh')
  {
    hide EffectOf, Apply, RetryDelay;
    if !act.RecordSaveResult? && !act.FinishRetrySave? {
      OtherEffects(sh, pc, act);
      EventSpacing(sh.core, EffectOf(sh, pc, act));
    }
  }

  lemma {:induction false} RunRetries(r: Run, i: nat)
    requires IsRun(r) && i < |r.states|
    ensures SpacingOk(r.states[i].shared) && InitOk(r.states[i].shared)
  {
    if i > 0 {
      RunRetries(r, i - 1);
      assert IsStep(r, i - 1);
      StepKeepsRetries(r.states[i - 1].shared, r.labels[i - 1].thread,
                       PcOf(r.states[i - 1], r.labels[i - 1].thread), r.labels[i - 1].action,
                       r.states[i].shared, PcOf(r.states[i], r.labels[i - 1].thread));
    }
  }
}
