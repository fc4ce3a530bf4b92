/**
 What a refresh may install (refresh.go:362-485), for every run: only what the token
 endpoint answered to that very attempt, and never another user's session.
*/
module GrantTheorems {
  import opened Base
  import opened Basics
  import opened ClientCore
  import opened CoreEvents
  import opened Errors
  import opened Places
  import opened Protocol
  import opened SessionTheorems
  import opened Tokens
  import A = Attempts
  import G = Generations
  import AttemptTheorems
  import ParkingTheorems
  import RefusalTheorems

  // ----- subjects ---------------------------------------------------------------

  /** How this run's Client reads the subject out of an ID token. */
  function SubjectOf(r: Run): Decoder
    requires |r.states| > 0
  {
    At(r, 0).core.subjectOf
  }

  lemma {:induction false} DecoderIsFixed(r: Run, i: nat)
    requires IsRun(r) && i < |r.states|
    ensures At(r, i).core.subjectOf == SubjectOf(r)
  {
    if i > 0 {
      hide Do, Initial;
      DecoderIsFixed(r, i - 1);
      assert IsStep(r, i - 1);
      var t := r.labels[i - 1].thread;
      StepKeepsDecoder(At(r, i - 1), t, PcOf(r.states[i - 1], t), r.labels[i - 1].action, At(r, i),
                       PcOf(r.states[i], t));
    }
  }

  lemma StepKeepsDecoder(sh: Shared, t: Thread, pc: Pc, act: Action, sh': Shared, pc': Pc)
    requires Do(sh, t, pc, act) == Some((sh', pc'))
    ensures sh'.core.subjectOf == sh.core.subjectOf
  {
    hide *;
    StepEvent(sh, t, pc, act, sh', pc');
    EventKeeps(sh.core, EffectOf(sh, pc, act));
  }

  /** The decoder is part of the Client, and the state only changes with its revision. */
  lemma EventKeeps(c: Core, e: Event)
    ensures Apply(c, e).subjectOf == c.subjectOf
    ensures Apply(c, e).revision == c.revision ==> Apply(c, e).state == c.state
  {}

  // ----- answers ----------------------------------------------------------------

  /** The session goes on for the same user: the ID token is the held one, or a verified
      one that names the same subject. */
  predicate SameUser(subjectOf: Decoder, held: TokenState, response: TokenResponse, next: TokenState) {
    if response.idToken == "" then next.idToken == held.idToken
    else
      && next.idToken == response.idToken && response.verified
      && subjectOf(next.idToken) == subjectOf(held.idToken)
      && subjectOf(next.idToken).Some? && subjectOf(next.idToken).value != ""
  }

  /** `next` is what `response`, read at `at`, makes of `held`: the tokens and the expiry of
      the response, where an absent refresh token keeps the held one. */
  predicate Refreshes(subjectOf: Decoder, held: TokenState, response: TokenResponse, next: TokenState,
                      at: Time)
  {
    && next.accessToken == response.accessToken
    && next.refreshToken == (if response.refreshToken != "" then response.refreshToken
                             else held.refreshToken)
    && next.expiresAt == response.expiresAt
    && next.lastAuthAt == at
    && SameUser(subjectOf, held, response, next)
  }

  /** The answer carries no ID token, or a verified one that names the held subject. */
  predicate Acceptable(subjectOf: Decoder, held: TokenState, response: TokenResponse) {
    || response.idToken == ""
    || (&& response.verified && held.idToken != ""
        && subjectOf(response.idToken).Some? && subjectOf(response.idToken).value != ""
        && subjectOf(response.idToken) == subjectOf(held.idToken))
  }

  lemma AnswersAreChecked(subjectOf: Decoder, held: TokenState, response: TokenResponse, now: Time)
    ensures
      match RefreshedState(subjectOf, held, response, now)
      case Some(next) =>
        Acceptable(subjectOf, held, response) && Refreshes(subjectOf, held, response, next, now)
      case None => !Acceptable(subjectOf, held, response)
  {}

  /** The answer to a grant is accepted if and only if it has no ID token or a verified one
      of the same, non-empty subject; any other answer is an integrity failure. */
  lemma GrantIsExact(r: Run, i: nat)
    requires IsRun(r) && i < |r.labels| && r.labels[i].action.GrantSucceeds?
    ensures ActorPc(r, i).Granting? && ActorPc(r, i).attempt in At(r, i).attempts
    ensures
      var a, response := ActorPc(r, i).attempt, r.labels[i].action.response;
      var held, pc' := At(r, i).attempts[a].snapshot, PcOf(r.states[i + 1], r.labels[i].thread);
      if Acceptable(SubjectOf(r), held, response) then
        && pc'.GrantOk? && pc'.attempt == a
        && Refreshes(SubjectOf(r), held, response, pc'.next, At(r, i).clock)
      else pc' == GrantFailed(a, IntegrityFailure)
  {
    hide Do, Initial, Acceptable, Refreshes;
    DecoderIsFixed(r, i);
    ParkingTheorems.StepAt(r, i);
    var t := r.labels[i].thread;
    GrantDecides(At(r, i), t, ActorPc(r, i), r.labels[i].action, At(r, i + 1), PcOf(r.states[i + 1], t));
  }

  lemma GrantDecides(sh: Shared, t: Thread, pc: Pc, act: Action, sh': Shared, pc': Pc)
    requires act.GrantSucceeds? && Do(sh, t, pc, act) == Some((sh', pc'))
    ensures pc.Granting? && pc.attempt in sh.attempts
    ensures
      var held := sh.attempts[pc.attempt].snapshot;
      if Acceptable(sh.core.subjectOf, held, act.response) then
        && pc'.GrantOk? && pc'.attempt == pc.attempt
        && Refreshes(sh.core.subjectOf, held, act.response, pc'.next, sh.clock)
      else pc' == GrantFailed(pc.attempt, IntegrityFailure)
  {
    EveryActionIsGrouped(act);
    Dispatch(sh, t, pc, act);
    if pc.Granting? && pc.attempt in sh.attempts {
      AnswersAreChecked(sh.core.subjectOf, sh.attempts[pc.attempt].snapshot, act.response, sh.clock);
    }
    hide Do, GroupOf, RefreshedState, Acceptable, Refreshes;
  }

  /** At step `k` thread `t` received `response` for `held`, which makes it `next`. */
  ghost predicate Answered(r: Run, k: nat, t: Thread, response: TokenResponse, held: TokenState,
                           next: TokenState)
    requires IsRun(r)
  {
    && k < |r.labels|
    && r.labels[k] == Label(t, GrantSucceeds(response))
    && Refreshes(SubjectOf(r), held, response, next, At(r, k).clock)
  }

  /** A goroutine that has tokens to commit got them as the answer to its own grant. */
  lemma {:induction false} AnswerBehind(r: Run, i: nat, t: Thread)
    requires IsRun(r) && i < |r.states| && PcOf(r.states[i], t).GrantOk?
    ensures PcOf(r.states[i], t).attempt in At(r, i).attempts
    ensures exists k, response :: 0 <= k < i &&
              Answered(r, k, t, response, At(r, i).attempts[PcOf(r.states[i], t).attempt].snapshot,
                       PcOf(r.states[i], t).next)
  {
    hide Do, Inv, Initial, Refreshes;
    var pc := PcOf(r.states[i], t);
    assert i > 0 by { StartsIdle(r); }
    RunInv(r, i - 1);
    assert IsStep(r, i - 1);
    var s, s', u, act := r.states[i - 1], r.states[i], r.labels[i - 1].thread, r.labels[i - 1].action;
    if PcOf(s, t) == pc {
      AnswerBehind(r, i - 1, t);
      var k, response :| 0 <= k < i - 1 &&
        Answered(r, k, t, response, At(r, i - 1).attempts[pc.attempt].snapshot, pc.next);
      SnapshotsStay(s, u, act, s', pc.attempt);
      assert Answered(r, k, t, response, At(r, i).attempts[pc.attempt].snapshot, pc.next);
    } else {
      ReceivesAnswer(s.shared, t, PcOf(s, t), act, s'.shared, pc);
      DecoderIsFixed(r, i - 1);
      assert Answered(r, i - 1, t, act.response, At(r, i).attempts[pc.attempt].snapshot, pc.next);
    }
  }

  lemma StartsIdle(r: Run)
    requires IsRun(r)
    ensures forall t :: PcOf(r.states[0], t) == Idle
  {}

  lemma SnapshotsStay(s: System, u: Thread, act: Action, s': System, a: nat)
    requires Inv(s) && StepTo(s, u, act) == Some(s') && a in s.shared.attempts
    ensures a in s'.shared.attempts
    ensures s'.shared.attempts[a].snapshot == s.shared.attempts[a].snapshot
  {
    hide Do, Inv, Local, Global, G.Rely;
    SystemStepKeeps(s, u, act, s');
    var other := if u.Caller? then Goroutine(0) else Caller(0);
    assert Rely(other, s.shared, s'.shared);
  }

  lemma ReceivesAnswer(sh: Shared, t: Thread, pc: Pc, act: Action, sh': Shared, pc': Pc)
    requires Do(sh, t, pc, act) == Some((sh', pc')) && pc' != pc && pc'.GrantOk?
    ensures act.GrantSucceeds? && pc'.attempt in sh.attempts && sh'.attempts == sh.attempts
    ensures Refreshes(sh.core.subjectOf, sh.attempts[pc'.attempt].snapshot, act.response, pc'.next,
                      sh.clock)
  {
    EveryActionIsGrouped(act);
    hide *;
    StepEvent(sh, t, pc, act, sh', pc');
    Dispatch(sh, t, pc, act);
    TokensArrive(act, pc');
    if act.FinishAttempt? {
      CloseHasNoTokens(sh, t, pc, act);
    } else if act.CheckRefusal? || act.LoadForRefusal? || act.InstallRefusal? {
      RefusalHasNoTokens(sh, t, pc, act);
    } else if act.QueueCommitEvent? {
      CommitHasNoTokens(sh, t, pc, act);
    } else {
      GrantHasTokens(sh, t, pc, act, sh', pc');
    }
  }

  lemma TokensArrive(act: Action, pc: Pc)
    requires pc.GrantOk? && Arrives(act, PartOf(pc))
    ensures
      || act.Launch? || act.GrantFails? || act.GrantSucceeds? || act.FenceFailure?
      || act.CommitRefresh? || act.CheckRefusal? || act.LoadForRefusal? || act.InstallRefusal?
      || act.FinishAttempt? || act.QueueCommitEvent?
  {}

  lemma CloseHasNoTokens(sh: Shared, t: Thread, pc: Pc, act: Action)
    ensures DoClose(sh, t, pc, act).Some? ==> !DoClose(sh, t, pc, act).value.1.GrantOk?
  {}

  lemma RefusalHasNoTokens(sh: Shared, t: Thread, pc: Pc, act: Action)
    ensures DoRefusal(sh, t, pc, act).Some? ==> !DoRefusal(sh, t, pc, act).value.1.GrantOk?
  {}

  lemma CommitHasNoTokens(sh: Shared, t: Thread, pc: Pc, act: Action)
    ensures DoCommit(sh, t, pc, act).Some? ==> !DoCommit(sh, t, pc, act).value.1.GrantOk?
  {}

  lemma GrantHasTokens(sh: Shared, t: Thread, pc: Pc, act: Action, sh': Shared, pc': Pc)
    requires DoGrant(sh, t, pc, act) == Some((sh', pc')) && pc'.GrantOk? && pc' != pc
    ensures act.GrantSucceeds? && pc'.attempt in sh.attempts && sh'.attempts == sh.attempts
    ensures Refreshes(sh.core.subjectOf, sh.attempts[pc'.attempt].snapshot, act.response, pc'.next,
                      sh.clock)
  {
    if act.GrantSucceeds? && pc.Granting? && pc.attempt in sh.attempts {
      AnswersAreChecked(sh.core.subjectOf, sh.attempts[pc.attempt].snapshot, act.response, sh.clock);
    }
    hide RefreshedState, Refreshes, Acceptable, Install;
  }

  /** A refresh commits exactly what the provider answered to that attempt, for the current
      generation: its access token and expiry, the rotated refresh token or else the old
      one, the same user, and the time at which the answer was read. */
  lemma RefreshKeepsTheSession(r: Run, i: nat)
    requires IsRun(r) && i < |r.labels| && r.labels[i].action.CommitRefresh?
    requires At(r, i + 1).core.revision != At(r, i).core.revision
    ensures
      var t, held, next := r.labels[i].thread, At(r, i).core.state, At(r, i + 1).core.state;
      exists k, response :: 0 <= k < i
        && Answered(r, k, t, response, held, next)
    ensures At(r, i + 1).core.state.refreshToken != ""
    ensures SubjectOf(r)(At(r, i + 1).core.state.idToken) == SubjectOf(r)(At(r, i).core.state.idToken)
  {
    hide Do, Inv, Initial, Answered;
    RunInv(r, i);
    assert IsStep(r, i);
    var t := r.labels[i].thread;
    var pc := PcOf(r.states[i], t);
    CommitDecides(At(r, i), t, pc, At(r, i + 1), PcOf(r.states[i + 1], t));
    AnswerBehind(r, i, t);
    FencedSnapshot(r.states[i], pc.attempt);
    var k, response :| 0 <= k < i && Answered(r, k, t, response, At(r, i).core.state, pc.next);
    AnswersKeepUser(r, k, t, response, At(r, i).core.state, pc.next);
  }

  lemma FencedSnapshot(s: System, a: nat)
    requires Inv(s) && a in s.shared.attempts
    requires s.shared.attempts[a].revision == s.shared.core.revision
    ensures s.shared.attempts[a].snapshot == s.shared.core.state
    ensures s.shared.core.state.refreshToken != ""
  {
    assert A.AttemptOk(s.shared, a);
  }

  lemma AnswersKeepUser(r: Run, k: nat, t: Thread, response: TokenResponse, held: TokenState,
                        next: TokenState)
    requires IsRun(r) && Answered(r, k, t, response, held, next)
    ensures SubjectOf(r)(next.idToken) == SubjectOf(r)(held.idToken)
    ensures held.refreshToken != "" ==> next.refreshToken != ""
  {}

  /** The answer is committed if and only if its revision is still current. */
  lemma CommitIsExact(r: Run, i: nat)
    requires IsRun(r) && i < |r.labels| && r.labels[i].action.CommitRefresh?
    ensures ActorPc(r, i).GrantOk? && ActorPc(r, i).attempt in At(r, i).attempts
    ensures
      var pc, core, core' := ActorPc(r, i), At(r, i).core, At(r, i + 1).core;
      if At(r, i).attempts[pc.attempt].revision == core.revision then
        core'.revision == core.revision + 1 && core'.state == pc.next
      else core' == core
  {
    hide Do, Initial;
    ParkingTheorems.StepAt(r, i);
    var t := r.labels[i].thread;
    CommitDecides(At(r, i), t, ActorPc(r, i), At(r, i + 1), PcOf(r.states[i + 1], t));
  }

  lemma CommitDecides(sh: Shared, t: Thread, pc: Pc, sh': Shared, pc': Pc)
    requires Do(sh, t, pc, CommitRefresh) == Some((sh', pc'))
    ensures pc.GrantOk? && pc.attempt in sh.attempts
    ensures
      if sh.attempts[pc.attempt].revision == sh.core.revision then
        sh'.core.revision == sh.core.revision + 1 && sh'.core.state == pc.next
      else sh'.core == sh.core
  {
    EveryActionIsGrouped(CommitRefresh);
    Dispatch(sh, t, pc, CommitRefresh);
    hide Do, GroupOf;
  }

  /** A failed grant is reported for its own revision only: a refusal goes on to be checked,
      any other failure ends the attempt, and a stale one ends it without an error. */
  lemma FailuresAreFenced(r: Run, i: nat)
    requires IsRun(r) && i < |r.labels| && r.labels[i].action.FenceFailure?
    ensures ActorPc(r, i).GrantFailed? && ActorPc(r, i).attempt in At(r, i).attempts
    ensures At(r, i + 1) == At(r, i)
    ensures
      var pc, pc' := ActorPc(r, i), PcOf(r.states[i + 1], r.labels[i].thread);
      var current := At(r, i).attempts[pc.attempt].revision == At(r, i).core.revision;
      && (pc'.Refusing? <==> current && pc.failure.InvalidGrant?)
      && (pc'.Finishing? && pc'.outcome.failure == Some(pc.failure) <==>
            current && !pc.failure.InvalidGrant?)
      && (pc'.Finishing? && pc'.outcome.failure == None <==> !current)
      && (pc'.Finishing? || pc'.Refusing?) && pc'.attempt == pc.attempt
  {
    hide Do, Initial;
    ParkingTheorems.StepAt(r, i);
    var t := r.labels[i].thread;
    FenceDecides(At(r, i), t, ActorPc(r, i), At(r, i + 1), PcOf(r.states[i + 1], t));
  }

  lemma FenceDecides(sh: Shared, t: Thread, pc: Pc, sh': Shared, pc': Pc)
    requires Do(sh, t, pc, FenceFailure) == Some((sh', pc'))
    ensures pc.GrantFailed? && pc.attempt in sh.attempts && sh' == sh
    ensures
      var current := sh.attempts[pc.attempt].revision == sh.core.revision;
      && (pc'.Refusing? <==> current && pc.failure.InvalidGrant?)
      && (pc'.Finishing? && pc'.outcome.failure == Some(pc.failure) <==>
            current && !pc.failure.InvalidGrant?)
      && (pc'.Finishing? && pc'.outcome.failure == None <==> !current)
      && (pc'.Finishing? || pc'.Refusing?) && pc'.attempt == pc.attempt
  {
    EveryActionIsGrouped(FenceFailure);
    Dispatch(sh, t, pc, FenceFailure);
    hide Do, GroupOf;
  }

  /** The state of a generation does not change. */
  lemma {:induction false} GenerationStands(r: Run, i: nat, j: nat)
    requires IsRun(r) && i <= j < |r.states|
    requires At(r, j).core.revision == At(r, i).core.revision
    ensures At(r, j).core.state == At(r, i).core.state
    decreases j
  {
    hide Do, Initial, Apply, EffectOf, Arrives, PartOf, Untouched;
    if i < j {
      ParkingTheorems.RevisionsGrow(r, i, j - 1);
      ParkingTheorems.RevisionsGrow(r, j - 1, j);
      GenerationStands(r, i, j - 1);
      ParkingTheorems.StepAt(r, j - 1);
      var t, act := r.labels[j - 1].thread, r.labels[j - 1].action;
      StepEvent(At(r, j - 1), t, ActorPc(r, j - 1), act, At(r, j), PcOf(r.states[j], t));
      EventKeeps(At(r, j - 1).core, EffectOf(At(r, j - 1), ActorPc(r, j - 1), act));
    }
  }

  /** Rotation: after a refresh was committed at step `i`, the next attempts of the new
      generation present the refresh token of the answer, or the old one if it had none. */
  lemma NextAttemptPresents(r: Run, i: nat, j: nat)
    requires IsRun(r) && i < j < |r.labels| && r.labels[i].action.CommitRefresh?
    requires At(r, i + 1).core.revision != At(r, i).core.revision
    requires At(r, j).core.revision == At(r, i + 1).core.revision
    requires At(r, j + 1).nextAttempt != At(r, j).nextAttempt
    ensures At(r, j).nextAttempt in At(r, j + 1).attempts
    ensures
      var t, held := r.labels[i].thread, At(r, i).core.state;
      var presented := At(r, j + 1).attempts[At(r, j).nextAttempt].snapshot;
      exists k, response :: 0 <= k < i
        && r.labels[k] == Label(t, GrantSucceeds(response))
        && presented.refreshToken == (if response.refreshToken != "" then response.refreshToken
                                      else held.refreshToken)
  {
    hide Do, Inv, Initial, Answered;
    RefreshKeepsTheSession(r, i);
    GenerationStands(r, i + 1, j);
    AttemptTheorems.NoOverlap(r, j);
    var t, held, next := r.labels[i].thread, At(r, i).core.state, At(r, i + 1).core.state;
    var k, response :| 0 <= k < i && Answered(r, k, t, response, held, next);
    AnswerTells(r, k, t, response, held, next);
  }

  lemma AnswerTells(r: Run, k: nat, t: Thread, response: TokenResponse, held: TokenState,
                    next: TokenState)
    requires IsRun(r) && Answered(r, k, t, response, held, next)
    ensures k < |r.labels| && r.labels[k] == Label(t, GrantSucceeds(response))
    ensures next.refreshToken == (if response.refreshToken != "" then response.refreshToken
                                  else held.refreshToken)
  {}

  // ----- a chain of refreshes ---------------------------------------------------

  /** Step `k` replaces the session by another one: a Login, a restored session or a
      Logout commits. */
  ghost predicate ReplacesSession(r: Run, k: nat)
    requires IsRun(r) && k < |r.labels|
  {
    && At(r, k + 1).core.revision != At(r, k).core.revision
    && (|| r.labels[k].action.InstallLogin? || r.labels[k].action.InstallRestored?
        || r.labels[k].action.ClearState?)
  }

  /** Between two commits of Login, RestoreSession or Logout, the subject of the held ID
      token never changes, over any number of refreshes and refusals. */
  lemma {:induction false} SubjectNeverChanges(r: Run, i: nat, j: nat)
    requires IsRun(r) && i <= j < |r.states|
    requires forall k :: i <= k < j ==> !ReplacesSession(r, k)
    ensures SubjectOf(r)(At(r, j).core.state.idToken) == SubjectOf(r)(At(r, i).core.state.idToken)
    decreases j
  {
    if i < j {
      SubjectNeverChanges(r, i, j - 1);
      assert !ReplacesSession(r, j - 1);
      StepKeepsSubject(r, j - 1);
    }
  }

  lemma StepKeepsSubject(r: Run, k: nat)
    requires IsRun(r) && k < |r.labels| && !ReplacesSession(r, k)
    ensures SubjectOf(r)(At(r, k + 1).core.state.idToken) == SubjectOf(r)(At(r, k).core.state.idToken)
  {
    hide Do, Inv, Initial, Apply, EffectOf, Arrives, PartOf, Untouched;
    assert IsStep(r, k);
    var t, act := r.labels[k].thread, r.labels[k].action;
    var pc := PcOf(r.states[k], t);
    StepEvent(At(r, k), t, pc, act, At(r, k + 1), PcOf(r.states[k + 1], t));
    EventKeeps(At(r, k).core, EffectOf(At(r, k), pc, act));
    ParkingTheorems.AdvancingAction(At(r, k), pc, act);
    if At(r, k + 1).core.revision != At(r, k).core.revision {
      if act.CommitRefresh? {
        RefreshKeepsTheSession(r, k);
      } else {
        RefusalKeepsIdToken(r, k);
      }
    }
  }

  /** A refused session still names its user. */
  lemma RefusalKeepsIdToken(r: Run, k: nat)
    requires IsRun(r) && k < |r.labels| && r.labels[k].action.InstallRefusal?
    ensures At(r, k + 1).core.state.idToken == At(r, k).core.state.idToken
  {
    hide Do, Inv, Initial;
    RefusalTheorems.RefusalIsJustified(r, k);
    RefusalTheorems.RefusalIsExact(r, k);
    RunInv(r, k);
    FencedSnapshot(r.states[k], ActorPc(r, k).attempt);
  }
}
