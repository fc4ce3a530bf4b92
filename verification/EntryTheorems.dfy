/**
 Who gets a refresh attempt (refresh.go:196-307), exactly and in every state of every run:
 which callers lead a new attempt, join the running one, wait for it to end, or are turned
 away; and that an attempt nobody waited for does not use up its generation.
*/
module EntryTheorems {
  import opened Base
  import opened Basics
  import opened ClientCore
  import opened CoreEvents
  import opened Errors
  import opened ParkingTheorems
  import opened Places
  import opened Protocol
  import opened SessionTheorems
  import opened Tokens
  import A = Attempts
  import AttemptTheorems
  import G = Generations
  import RefusalTheorems

  // ----- the conditions ---------------------------------------------------------

  /** The generation may be refreshed: not parked, and discovery has succeeded. */
  predicate Admissible(c: Core) {
    !Parked(c) && c.discovery.Some?
  }

  /** The supervisor's claim is the one that is out. */
  predicate ClaimStands(c: Core, claim: Claim) {
    && c.schedule.valid && c.schedule.revision == c.revision
    && c.schedule.claimID == claim.id && c.schedule.disposition.Active?
  }

  /** The running attempt can be joined: it serves the current generation and somebody
      still waits for it. */
  predicate Joinable(sh: Shared) {
    && sh.current.Some? && sh.current.value in sh.attempts
    && sh.attempts[sh.current.value].revision == sh.core.revision
    && sh.attempts[sh.current.value].participants > 0
  }

  /** A new attempt for the current generation, led by `t`. */
  ghost predicate Leads(sh: Shared, t: Thread, sh': Shared) {
    && sh'.core == sh.core
    && sh'.nextAttempt == sh.nextAttempt + 1
    && sh'.current == Some(sh.nextAttempt)
    && sh.nextAttempt in sh'.attempts
    && var at := sh'.attempts[sh.nextAttempt];
       && at.revision == sh.core.revision && at.snapshot == sh.core.state
       && at.participants == 1 && at.joined == {t}
       && !at.cancelled && !at.launched && at.outcome.None? && !at.complete
  }

  ghost predicate Joins(sh: Shared, t: Thread, sh': Shared) {
    && sh.current.Some? && sh.current.value in sh.attempts && sh.current.value in sh'.attempts
    && sh'.core == sh.core
    && sh'.nextAttempt == sh.nextAttempt && sh'.current == sh.current
    && var at, at' := sh.attempts[sh.current.value], sh'.attempts[sh.current.value];
       at' == at.(participants := at.participants + 1, joined := at.joined + {t})
  }

  // ----- one pass ---------------------------------------------------------------

  /** The entry of a caller whose generation is current. */
  lemma EntryIs(sh: Shared, t: Thread, claimID: nat)
    ensures
      var (sh', entry) := TryBegin(sh, t, sh.core.state, sh.core.revision, claimID);
      var standing := claimID == 0 ||
        (&& sh.core.schedule.valid && sh.core.schedule.revision == sh.core.revision
         && sh.core.schedule.claimID == claimID && sh.core.schedule.disposition.Active?
         && sh.clock < sh.core.state.expiresAt);
      if Admissible(sh.core) && standing then
        if sh.current == None then Leads(sh, t, sh') && entry == Joined(sh.nextAttempt)
        else if Joinable(sh) then Joins(sh, t, sh') && entry == Joined(sh.current.value)
        else sh' == sh && entry == Again
      else sh' == sh && entry.Left?
  {}

  /** Why a caller of the current generation is turned away. */
  lemma RefusedEntryIs(sh: Shared, t: Thread)
    ensures
      var entry := TryBegin(sh, t, sh.core.state, sh.core.revision, 0).1;
      && (BlockedAs(sh.core, BlockedIntegrity) ==> entry == Left(Some(IntegrityFailure)))
      && (BlockedAs(sh.core, BlockedPermanent) ==> entry == Left(Some(BlockedPermanently)))
      && (!Parked(sh.core) && sh.core.discovery.None? ==> entry == Left(Some(Uninitialized)))
  {}

  lemma StaleEntryIs(sh: Shared, t: Thread, snapshot: TokenState, revision: nat, claimID: nat)
    requires revision != sh.core.revision
    ensures TryBegin(sh, t, snapshot, revision, claimID) == (sh, Left(None))
  {}

  lemma CallerEnters(sh: Shared, t: Thread, pc: Pc, act: Action, sh': Shared, pc': Pc)
    requires act.TryRefresh? && pc.TokenTrying? && Do(sh, t, pc, act) == Some((sh', pc'))
    ensures
      var (begun, entry) := TryBegin(sh, t, pc.snapshot, pc.revision, 0);
      && sh' == begun
      && pc' == match entry
                case Left(None) => Answered(sh.core.state.accessToken)
                case Left(Some(f)) => TokenBlocking(pc.snapshot, pc.revision, f)
                case Joined(a) => TokenWaiting(a, pc.snapshot, pc.revision)
                case Again => pc
  {
    EveryActionIsGrouped(act);
    Dispatch(sh, t, pc, act);
    hide Do, GroupOf, TryBegin;
  }

  lemma SupervisorEnters(sh: Shared, t: Thread, pc: Pc, act: Action, sh': Shared, pc': Pc)
    requires act.TryRefresh? && pc.LoopTrying? && Do(sh, t, pc, act) == Some((sh', pc'))
    ensures
      var (begun, entry) := TryBegin(sh, t, pc.claim.state, pc.claim.revision, pc.claim.id);
      && sh' == begun.(ghosts := sh'.ghosts)
      && pc' == match entry
                case Left(f) => LoopDone(pc.claim, ReadResult(f, false, act.ctxDone))
                case Joined(a) => LoopJoined(pc.claim, a)
                case Again => pc
  {
    EveryActionIsGrouped(act);
    Dispatch(sh, t, pc, act);
    hide Do, GroupOf, TryBegin, ReadResult;
  }

  /** A reading of the current revision is the state of memory. */
  lemma ReadingIsCurrent(s: System, t: Thread)
    requires Inv(s) && SnapshotOf(PcOf(s, t)).Some?
    requires SnapshotOf(PcOf(s, t)).value.revision == s.shared.core.revision
    ensures SnapshotOf(PcOf(s, t)).value.state == s.shared.core.state
  {
    hide A.AttemptFits, A.AttemptsOk;
    assert Local(s.shared, t, PcOf(s, t));
  }

  lemma ClaimIsNumbered(s: System, t: Thread)
    requires Inv(s) && PcOf(s, t).LoopTrying?
    ensures PcOf(s, t).claim.id > 0
  {
    hide A.AttemptFits, A.AttemptsOk;
    assert Local(s.shared, t, PcOf(s, t));
  }

  /** A caller's refresh leads a new attempt if and only if the generation it asked about is
      current, not parked and discovered, and no attempt is unfinished; it joins the running
      attempt if and only if that one serves the same generation and somebody still waits
      for it; for an attempt of another kind it waits. A caller of a replaced generation is
      answered from memory, and a parked or undiscovered one is refused. */
  lemma CallersAreAdmitted(r: Run, i: nat)
    requires IsRun(r) && i < |r.labels| && r.labels[i].action.TryRefresh? && ActorPc(r, i).TokenTrying?
    ensures
      var sh, sh', t, pc := At(r, i), At(r, i + 1), r.labels[i].thread, ActorPc(r, i);
      var pc', current := PcOf(r.states[i + 1], t), pc.revision == sh.core.revision;
      var admitted := current && Admissible(sh.core);
      && (Leads(sh, t, sh') <==> admitted && sh.current == None)
      && (Leads(sh, t, sh') ==> pc' == TokenWaiting(sh.nextAttempt, sh.core.state, sh.core.revision))
      && (Joins(sh, t, sh') <==> admitted && Joinable(sh))
      && (Joins(sh, t, sh') ==>
            pc' == TokenWaiting(sh.current.value, sh.core.state, sh.core.revision))
      && (!Leads(sh, t, sh') && !Joins(sh, t, sh') ==> sh' == sh)
      && (pc' == pc <==> admitted && sh.current != None && !Joinable(sh))
      && (!current ==> pc' == Answered(sh.core.state.accessToken))
      && (current && BlockedAs(sh.core, BlockedIntegrity) ==>
            pc' == TokenBlocking(sh.core.state, sh.core.revision, IntegrityFailure))
      && (current && BlockedAs(sh.core, BlockedPermanent) ==>
            pc' == TokenBlocking(sh.core.state, sh.core.revision, BlockedPermanently))
      && (current && !Parked(sh.core) && sh.core.discovery.None? ==>
            pc' == TokenBlocking(sh.core.state, sh.core.revision, Uninitialized))
  {
    hide Do, Initial, Inv, Parked;
    RunInv(r, i);
    StepAt(r, i);
    var sh, t, pc := At(r, i), r.labels[i].thread, ActorPc(r, i);
    CallerEnters(sh, t, pc, r.labels[i].action, At(r, i + 1), PcOf(r.states[i + 1], t));
    if pc.revision == sh.core.revision {
      ReadingIsCurrent(r.states[i], t);
      EntryIs(sh, t, 0);
      RefusedEntryIs(sh, t);
    } else {
      StaleEntryIs(sh, t, pc.snapshot, pc.revision, 0);
    }
    hide TryBegin;
    ParkedOrNot(sh.core);
  }

  lemma ParkedOrNot(c: Core)
    ensures Parked(c) <==> BlockedAs(c, BlockedPermanent) || BlockedAs(c, BlockedIntegrity)
  {}

  /** Why a supervisor is turned away. */
  lemma RefusedClaimIs(sh: Shared, t: Thread, claim: Claim, ctxDone: bool)
    requires claim.id != 0 && claim.state == sh.core.state && claim.revision == sh.core.revision
    ensures
      var entry := TryBegin(sh, t, claim.state, claim.revision, claim.id).1;
      entry.Left? ==>
        ReadResult(entry.failure, false, ctxDone) ==
        if BlockedAs(sh.core, BlockedIntegrity) then IntegrityResult
        else if BlockedAs(sh.core, BlockedPermanent) then PermanentResult
        else if !ClaimStands(sh.core, claim) then Succeeded
        else if sh.core.state.expiresAt <= sh.clock then ExpiredResult
        else if ctxDone then CanceledBeforeStart
        else Temporary
  {}

  /** A supervisor's refresh leads or joins an attempt if and only if a caller's would and,
      besides, its claim is the one that is out, the schedule is active and the tokens have
      not expired. Otherwise its result tells why: parked, a claim that no longer stands,
      expired, or not discovered. */
  lemma SupervisorsAreAdmitted(r: Run, i: nat)
    requires IsRun(r) && i < |r.labels| && r.labels[i].action.TryRefresh? && ActorPc(r, i).LoopTrying?
    ensures
      var sh, sh', t, claim := At(r, i), At(r, i + 1), r.labels[i].thread, ActorPc(r, i).claim;
      var pc', current := PcOf(r.states[i + 1], t), claim.revision == sh.core.revision;
      var admitted := current && Admissible(sh.core) && ClaimStands(sh.core, claim)
                      && sh.clock < sh.core.state.expiresAt;
      && (Leads(sh, t, sh') <==> admitted && sh.current == None)
      && (Leads(sh, t, sh') ==> pc' == LoopJoined(claim, sh.nextAttempt))
      && (Joins(sh, t, sh') <==> admitted && Joinable(sh))
      && (Joins(sh, t, sh') ==> pc' == LoopJoined(claim, sh.current.value))
      && (pc' == ActorPc(r, i) <==> admitted && sh.current != None && !Joinable(sh))
      && (!admitted ==>
            pc' == LoopDone(claim,
              if !current then Succeeded
              else if BlockedAs(sh.core, BlockedIntegrity) then IntegrityResult
              else if BlockedAs(sh.core, BlockedPermanent) then PermanentResult
              else if !ClaimStands(sh.core, claim) then Succeeded
              else if sh.core.state.expiresAt <= sh.clock then ExpiredResult
              else if r.labels[i].action.ctxDone then CanceledBeforeStart
              else Temporary))
  {
    hide Do, Initial, Inv, Parked, ClaimStands, Admissible;
    RunInv(r, i);
    StepAt(r, i);
    var sh, t, claim := At(r, i), r.labels[i].thread, ActorPc(r, i).claim;
    SupervisorEnters(sh, t, ActorPc(r, i), r.labels[i].action, At(r, i + 1), PcOf(r.states[i + 1], t));
    if claim.revision == sh.core.revision {
      ReadingIsCurrent(r.states[i], t);
      ClaimIsNumbered(r.states[i], t);
      ClaimEntryIs(sh, t, claim);
      RefusedClaimIs(sh, t, claim, r.labels[i].action.ctxDone);
    } else {
      StaleEntryIs(sh, t, claim.state, claim.revision, claim.id);
    }
    hide TryBegin;
  }

  lemma ClaimEntryIs(sh: Shared, t: Thread, claim: Claim)
    requires claim.id != 0 && claim.state == sh.core.state && claim.revision == sh.core.revision
    ensures
      var (begun, entry) := TryBegin(sh, t, claim.state, claim.revision, claim.id);
      if Admissible(sh.core) && ClaimStands(sh.core, claim)
         && sh.clock < sh.core.state.expiresAt then
        if sh.current == None then Leads(sh, t, begun) && entry == Joined(sh.nextAttempt)
        else if Joinable(sh) then Joins(sh, t, begun) && entry == Joined(sh.current.value)
        else begun == sh && entry == Again
      else begun == sh && entry.Left?
  {
    EntryIs(sh, t, claim.id);
    hide TryBegin, Admissible;
  }

  // ----- which calls ask for a refresh ------------------------------------------

  /** A call reads the generation unless there is none or it is blocked as an integrity
      failure; it asks for a refresh if and only if what it read has no more than thirty
      seconds to live, holds a refresh token and was not parked, and discovery is there. A
      failed refresh ends an integrity failure with the empty string and leads any other
      call to the final decision, as does the end of its context. */
  lemma AskingIsExact(r: Run, i: nat)
    requires IsRun(r) && i < |r.labels|
    ensures
      var sh, act, pc := At(r, i), r.labels[i].action, ActorPc(r, i);
      Asks(sh, pc, act, PcOf(r.states[i + 1], r.labels[i].thread))
  {
    hide Do, Initial, Asks;
    StepAt(r, i);
    var t := r.labels[i].thread;
    AskingSteps(At(r, i), t, ActorPc(r, i), r.labels[i].action, At(r, i + 1), PcOf(r.states[i + 1], t));
  }

  predicate Asks(sh: Shared, pc: Pc, act: Action, pc': Pc) {
    && (act.BeginToken? ==>
          var state := sh.core.state;
          var held := state.accessToken != "" || state.refreshToken != "" || state.idToken != "";
          pc' == if held && !BlockedAs(sh.core, BlockedIntegrity)
                 then TokenRead(state, sh.core.revision, BlockedAs(sh.core, BlockedPermanent))
                 else Answered(""))
    && (act.JudgeToken? ==>
          && pc.TokenRead?
          && (pc'.TokenTrying? <==>
                && pc.snapshot.expiresAt <= act.now + 30_000_000_000
                && pc.snapshot.refreshToken != "" && !pc.parked && sh.core.discovery.Some?)
          && (pc'.TokenTrying? ==> pc' == TokenTrying(pc.snapshot, pc.revision))
          && (pc' == TokenDeciding <==>
                && pc.snapshot.expiresAt <= act.now + 30_000_000_000
                && (pc.snapshot.refreshToken == "" || pc.parked || sh.core.discovery.None?)))
    && (act.BlockGeneration? ==>
          && pc.TokenBlocking?
          && pc' == if pc.failure.IntegrityFailure? then Answered("") else TokenDeciding)
    && (act.CancelWait? && (pc.TokenTrying? || pc.TokenWaiting?) ==> pc' == TokenDeciding)
  }

  lemma AskingSteps(sh: Shared, t: Thread, pc: Pc, act: Action, sh': Shared, pc': Pc)
    requires Do(sh, t, pc, act) == Some((sh', pc'))
    ensures Asks(sh, pc, act, pc')
  {
    EveryActionIsGrouped(act);
    Dispatch(sh, t, pc, act);
    hide Do, GroupOf, DoLogin, DoLogout, DoCommit, DoRestore, DoGrant, DoRefusal, DoClose, DoLoop,
         DoPersist, DoInit, TryBegin, BlockIntegrity, BlockPermanent, Leave, ReadResult;
  }

  // ----- an abandoned attempt costs nothing -------------------------------------

  /** In every state, a caller whose generation is current, not parked and discovered can
      take a step that leads a new attempt, if no attempt is unfinished. */
  lemma CanLead(r: Run, i: nat, t: Thread, ctxDone: bool)
    requires IsRun(r) && i < |r.states| && PcOf(r.states[i], t).TokenTrying?
    requires PcOf(r.states[i], t).revision == At(r, i).core.revision
    requires Admissible(At(r, i).core) && At(r, i).current == None
    ensures
      var sh, next := At(r, i), Do(At(r, i), t, PcOf(r.states[i], t), TryRefresh(ctxDone));
      && next.Some?
      && Leads(sh, t, next.value.0)
      && next.value.1 == TokenWaiting(sh.nextAttempt, sh.core.state, sh.core.revision)
  {
    hide Initial, Inv, Admissible, IsStep, Leads;
    RunInv(r, i);
    ReadingIsCurrent(r.states[i], t);
    EntryIs(At(r, i), t, 0);
    LeadStep(At(r, i), t, PcOf(r.states[i], t), ctxDone);
    hide Do, TryBegin;
  }

  lemma LeadStep(sh: Shared, t: Thread, pc: Pc, ctxDone: bool)
    requires pc.TokenTrying?
    requires TryBegin(sh, t, pc.snapshot, pc.revision, 0).1.Joined?
    ensures
      var (begun, entry) := TryBegin(sh, t, pc.snapshot, pc.revision, 0);
      Do(sh, t, pc, TryRefresh(ctxDone))
      == Some((begun, TokenWaiting(entry.attempt, pc.snapshot, pc.revision)))
  {
    EveryActionIsGrouped(TryRefresh(ctxDone));
    Dispatch(sh, t, pc, TryRefresh(ctxDone));
    hide Do, GroupOf, TryBegin;
  }

  /** The step that ends an attempt which everybody left, without an answer, marks its
      revision as inconclusive -- and right after it any caller of that generation can
      lead another attempt of it. */
  lemma AbandonedIsAttemptedAgain(r: Run, i: nat, u: Thread, ctxDone: bool)
    requires IsRun(r) && i < |r.labels| && r.labels[i].action.FinishAttempt?
    requires
      var sh, pc := At(r, i), ActorPc(r, i);
      && pc.Finishing? && pc.attempt in sh.attempts
      && sh.attempts[pc.attempt].revision == sh.core.revision
      && sh.attempts[pc.attempt].participants == 0
      && pc.outcome.failure.Some?
      && (pc.outcome.failure.value.Cancelled? || pc.outcome.failure.value.Transport?)
      && Admissible(sh.core)
    requires PcOf(r.states[i + 1], u).TokenTrying?
    requires PcOf(r.states[i + 1], u).revision == At(r, i).core.revision
    ensures At(r, i + 1).core.revision in At(r, i + 1).ghosts.inconclusive
    ensures
      var sh', next := At(r, i + 1), Do(At(r, i + 1), u, PcOf(r.states[i + 1], u), TryRefresh(ctxDone));
      && sh'.core.revision == At(r, i).core.revision
      && next.Some?
      && Leads(sh', u, next.value.0)
      && next.value.1 == TokenWaiting(sh'.nextAttempt, sh'.core.state, sh'.core.revision)
  {
    hide Do, Initial, Inv, Leads, Admissible;
    RefusalTheorems.MarkedBeforeNextAttempt(r, i);
    StepAt(r, i);
    var t := r.labels[i].thread;
    AbandonedLeavesNothing(At(r, i), t, ActorPc(r, i), r.labels[i].action, At(r, i + 1),
                           PcOf(r.states[i + 1], t));
    CanLead(r, i + 1, u, ctxDone);
  }

  lemma AbandonedLeavesNothing(sh: Shared, t: Thread, pc: Pc, act: Action, sh': Shared, pc': Pc)
    requires act.FinishAttempt? && Do(sh, t, pc, act) == Some((sh', pc'))
    requires pc.Finishing? && pc.outcome.failure.Some?
    requires pc.outcome.failure.value.Cancelled? || pc.outcome.failure.value.Transport?
    requires Admissible(sh.core)
    ensures sh'.core.revision == sh.core.revision && Admissible(sh'.core)
  {
    EveryActionIsGrouped(act);
    StepEvent(sh, t, pc, act, sh', pc') by { hide *; }
    hide Do, GroupOf, Arrives, PartOf, Untouched;
  }

  // ----- reading an outcome -----------------------------------------------------

  /** A caller that waited is answered from memory after a success and handles the failure
      otherwise; a supervisor reads the outcome as its result. */
  lemma OutcomesAreRead(r: Run, i: nat)
    requires IsRun(r) && i < |r.labels| && r.labels[i].action.ReadOutcome?
    ensures
      var sh, pc := At(r, i), ActorPc(r, i);
      && (pc.TokenWaiting? || pc.LoopJoined?)
      && pc.attempt in sh.attempts && sh.attempts[pc.attempt].outcome.Some?
      && var failure := sh.attempts[pc.attempt].outcome.value.failure;
         PcOf(r.states[i + 1], r.labels[i].thread) ==
           if pc.TokenWaiting? then
             if failure.Some? then TokenBlocking(pc.snapshot, pc.revision, failure.value)
             else Answered(sh.core.state.accessToken)
           else LoopDone(pc.claim, ResultOf(failure, r.labels[i].action.ctxDone))
  {
    hide Do, Initial;
    StepAt(r, i);
    var t := r.labels[i].thread;
    ReadingSteps(At(r, i), t, ActorPc(r, i), r.labels[i].action, At(r, i + 1), PcOf(r.states[i + 1], t));
  }

  /** The result of an attempt that was started, by the classes of its failure. */
  function ResultOf(failure: Option<Failure>, ctxDone: bool): AttemptResult {
    match failure
    case None => Succeeded
    case Some(IntegrityFailure) => IntegrityResult
    case Some(InvalidGrant) | Some(ClientRefused) | Some(BlockedPermanently) => PermanentResult
    case Some(ExpiredBeforeStart) => ExpiredResult
    case Some(OtherAuth) | Some(Uninitialized) | Some(Cancelled) | Some(Transport) =>
      if ctxDone then CanceledAfterStart else Temporary
  }

  lemma ReadingSteps(sh: Shared, t: Thread, pc: Pc, act: Action, sh': Shared, pc': Pc)
    requires act.ReadOutcome? && Do(sh, t, pc, act) == Some((sh', pc'))
    ensures pc.TokenWaiting? || pc.LoopJoined?
    ensures pc.attempt in sh.attempts && sh.attempts[pc.attempt].outcome.Some?
    ensures
      var failure := sh.attempts[pc.attempt].outcome.value.failure;
      pc' == if pc.TokenWaiting? then
               if failure.Some? then TokenBlocking(pc.snapshot, pc.revision, failure.value)
               else Answered(sh.core.state.accessToken)
             else LoopDone(pc.claim, ResultOf(failure, act.ctxDone))
  {
    EveryActionIsGrouped(act);
    Dispatch(sh, t, pc, act);
    hide Do, GroupOf, TryBegin, Leave;
  }
}
