/**
 The Client object. Every method is one critical section of the source (or one
 sequence under the state-commit lock) on the object's own fields, proved to have
 exactly the effect that the function of the same section in Core.dfy gives; the
 transition system of Protocol.dfy runs those functions under any interleaving.
*/
module ClientObject {
  import opened Basics
  import opened ClientCore
  import opened Errors
  import opened Events
  import opened StageTimes
  import opened Tokens

  // ----- collaborators ----------------------------------------------------------

  /** What one write does: it may report an error and still have been published, so a
      failed write leaves any content (interfaces.go:65-84). */
  datatype WriteOutcome = WriteOutcome(failed: bool, leftBehind: TokenState)

  class Store {
    var content: TokenState

    method Save(state: TokenState, outcome: WriteOutcome) returns (failed: bool)
      modifies this
      ensures failed == outcome.failed
      ensures content == if failed then outcome.leftBehind else state
    {
      content := if outcome.failed then outcome.leftBehind else state;
      return outcome.failed;
    }

    method Delete(outcome: WriteOutcome) returns (failed: bool)
      modifies this
      ensures failed == outcome.failed
      ensures content == if failed then outcome.leftBehind else ZERO
    {
      content := if outcome.failed then outcome.leftBehind else ZERO;
      return outcome.failed;
    }
  }

  datatype OperationKind = LoginOperation | LogoutOperation

  /** lifecycle.go:15-21; `ended` says that the caller's context is done. */
  class LifecycleOperation {
    const id: nat
    const kind: OperationKind
    var cancelled: bool
    var ended: bool

    constructor (id: nat, kind: OperationKind)
      ensures this.id == id && this.kind == kind && !cancelled && !ended
    {
      this.id, this.kind, cancelled, ended := id, kind, false, false;
    }
  }

  class InitOperation {
    const id: nat
    var cancelled: bool
    var ended: bool

    constructor (id: nat)
      ensures this.id == id && !cancelled && !ended
    {
      this.id, cancelled, ended := id, false, false;
    }
  }

  /** refresh.go:15-25. */
  class RefreshAttempt {
    const revision: nat
    const snapshot: TokenState
    var participants: int
    var cancelled: bool
    var done: bool
    var failure: Option<Failure>

    constructor (revision: nat, snapshot: TokenState)
      ensures this.revision == revision && this.snapshot == snapshot
      ensures participants == 1 && !cancelled && !done && failure == None
    {
      this.revision, this.snapshot := revision, snapshot;
      participants, cancelled, done, failure := 1, false, false, None;
    }
  }

  /** What one pass of beginRefreshAttempt tells its caller. */
  datatype BeginResult =
    | Answer(failure: Option<Failure>)
    | Lead(leading: RefreshAttempt)
    | Follow(following: RefreshAttempt)
    | WaitForDone(running: RefreshAttempt)

  class Client {
    const grace: nat
    const subjectOf: Decoder
    const store: Store
    const events: EventQueue

    // guarded by mu
    var state: TokenState
    var stateRevision: nat
    var provider: Option<nat>
    var verifier: Option<nat>
    var oauth2: Option<nat>
    var endSessionEndpoint: string
    var revocationEndpoint: string
    var refreshWake: nat
    var refreshSchedule: Schedule
    var refreshClaimSeq: nat
    var persistenceRetry: Retry
    var persistenceClaimSeq: nat
    var restoreBlocked: bool

    // guarded by refreshMu, initMu and lifecycleMu
    var refreshAttempt: RefreshAttempt?
    var initSeq: nat
    var initOperation: InitOperation?
    var lifecycleSeq: nat
    var lifecycleOperation: LifecycleOperation?

    /** Discovery results come and go together. */
    ghost predicate Valid() reads this {
      provider.Some? == verifier.Some? == oauth2.Some?
    }

    function Snapshot(): Option<Discovery> reads this {
      if oauth2.Some? && verifier.Some? && provider.Some? then
        Some(Discovery(provider.value, verifier.value, oauth2.value, endSessionEndpoint,
                       revocationEndpoint))
      else None
    }

    function View(): Core reads this {
      Core(state, stateRevision, refreshSchedule, persistenceRetry, restoreBlocked, refreshWake,
           refreshClaimSeq, persistenceClaimSeq, Snapshot(), grace, subjectOf)
    }

    constructor (grace: nat, subjectOf: Decoder, store: Store)
      ensures Valid() && View() == NewCore(grace, subjectOf) && this.store == store
      ensures fresh(events) && events.Idle()
      ensures refreshAttempt == null && lifecycleOperation == null && initOperation == null
    {
      this.grace, this.subjectOf, this.store := grace, subjectOf, store;
      events := new EventQueue();
      state, stateRevision := ZERO, 0;
      provider, verifier, oauth2 := None, None, None;
      endSessionEndpoint, revocationEndpoint := "", "";
      refreshWake, refreshSchedule, refreshClaimSeq := 0, NO_SCHEDULE, 0;
      persistenceRetry, persistenceClaimSeq, restoreBlocked := NO_RETRY, 0, false;
      refreshAttempt, initSeq, initOperation := null, 0, null;
      lifecycleSeq, lifecycleOperation := 0, null;
    }

    // ----- client.go: generations -----------------------------------------------

    method SignalRefreshLoop()
      modifies this`refreshWake
      ensures View() == Signal(old(View()))
    {
      refreshWake := refreshWake + 1;
    }

    method AdvanceState(next: TokenState)
      modifies this`state, this`stateRevision, this`refreshSchedule, this`persistenceRetry,
               this`restoreBlocked, this`refreshWake
      ensures View() == Advance(old(View()), next)
    {
      state := next;
      stateRevision := stateRevision + 1;
      refreshSchedule := NO_SCHEDULE;
      persistenceRetry := NO_RETRY;
      restoreBlocked := false;
      SignalRefreshLoop();
    }

    method SetState(next: TokenState)
      modifies this`state, this`stateRevision, this`refreshSchedule, this`persistenceRetry,
               this`restoreBlocked, this`refreshWake
      ensures View() == ClientCore.SetState(old(View()), next)
    {
      if state == next {
        return;
      }
      AdvanceState(next);
    }

    method AuthStatus(now: Time) returns (status: AuthStatusResult)
      ensures status == Status(View(), now)
    {
      if state.IsZero() {
        return UNUSABLE;
      }
      if refreshSchedule.valid && refreshSchedule.revision == stateRevision
         && refreshSchedule.disposition == BlockedIntegrity {
        return UNUSABLE;
      }
      var valid := now < state.expiresAt - TOKEN_EXPIRY_BUFFER;
      var graceMode, graceDaysLeft := false, 0;
      if !valid && grace > 0 && state.lastAuthAt != 0 {
        var graceEnd := state.lastAuthAt + grace;
        if now < graceEnd {
          graceMode := true;
          graceDaysLeft := (graceEnd - now) / DAY;
        }
      }
      status := AuthStatusResult(valid, graceMode, graceDaysLeft, valid || graceMode);
    }

    method UsableAccessToken(now: Time) returns (token: string)
      ensures token == UsableToken(View(), now)
    {
      if state.IsZero() || BlockedAs(View(), BlockedIntegrity) {
        return "";
      }
      if now < state.expiresAt - TOKEN_EXPIRY_BUFFER {
        return state.accessToken;
      }
      if grace > 0 && state.lastAuthAt != 0 {
        if now < state.lastAuthAt + grace {
          return state.accessToken;
        }
      }
      return "";
    }

    /** RestoreSession, with the outcome of the store's Load. */
    method RestoreSession(loadFails: bool) returns (restored: bool, failed: bool)
      modifies this`state, this`stateRevision, this`refreshSchedule, this`persistenceRetry,
               this`restoreBlocked, this`refreshWake
      ensures
        if old(restoreBlocked) then !restored && !failed && View() == old(View())
        else if old(RetryPending(View())) then
          restored == !old(state).IsZero() && !failed && View() == old(View())
        else if loadFails then !restored && failed && View() == old(View())
        else if store.content.IsZero() then !restored && !failed && View() == old(View())
        else
          && restored && !failed
          && state == store.content
          && View() == ClientCore.SetState(old(View()), store.content)
    {
      if restoreBlocked {
        return false, false;
      }
      if persistenceRetry.valid && persistenceRetry.revision == stateRevision {
        return !state.IsZero(), false;
      }
      if loadFails {
        return false, true;
      }
      var loaded := store.content;
      if loaded.IsZero() {
        return false, false;
      }
      SetState(loaded);
      return true, false;
    }

    // ----- client.go: Init ------------------------------------------------------

    predicate InitCurrent(operation: InitOperation) reads this, operation {
      initOperation == operation && !operation.ended && !operation.cancelled
    }

    method BeginInitOperation(ended: bool) returns (operation: InitOperation?)
      modifies this`initSeq, this`initOperation,
               (if initOperation == null then {} else {initOperation})`cancelled
      ensures ended ==> operation == null && initOperation == old(initOperation) && initSeq == old(initSeq)
      ensures !ended ==>
                && operation != null && fresh(operation) && InitCurrent(operation)
                && operation.id == initSeq == old(initSeq) + 1
      ensures !ended && old(initOperation) != null ==>
                !InitCurrent(old(initOperation)) && old(initOperation).cancelled
    {
      if ended {
        return null;
      }
      if initOperation != null {
        initOperation.cancelled := true;
      }
      initSeq := initSeq + 1;
      operation := new InitOperation(initSeq);
      initOperation := operation;
    }

    method FinishInitOperation(operation: InitOperation)
      modifies this`initOperation, operation`cancelled
      ensures initOperation == if old(initOperation) == operation then null else old(initOperation)
      ensures !InitCurrent(operation)
    {
      if initOperation == operation && initOperation.id == operation.id {
        initOperation := null;
      }
      operation.cancelled := true;
    }

    /** A superseded or cancelled Init applies nothing; a current one replaces the whole
        discovery snapshot and wakes the supervisors. */
    method CommitInit(operation: InitOperation, snapshot: Discovery) returns (committed: bool)
      modifies this`provider, this`verifier, this`oauth2, this`endSessionEndpoint,
               this`revocationEndpoint, this`refreshWake
      ensures committed == old(InitCurrent(operation))
      ensures View() == if committed then CommitDiscovery(old(View()), snapshot) else old(View())
      ensures committed || old(Valid()) ==> Valid()
    {
      if !InitCurrent(operation) {
        return false;
      }
      provider := Some(snapshot.provider);
      verifier := Some(snapshot.verifier);
      oauth2 := Some(snapshot.oauth2);
      endSessionEndpoint := snapshot.endSessionEndpoint;
      revocationEndpoint := snapshot.revocationEndpoint;
      SignalRefreshLoop();
      return true;
    }

    method CompleteInitFailure(operation: InitOperation) returns (reported: bool, shouldDrain: bool)
      modifies events
      ensures reported == InitCurrent(operation)
      ensures events.log == if reported then old(events.log) + [InitFailed] else old(events.log)
      ensures shouldDrain == (reported && !old(events.eventDispatching))
    {
      if !InitCurrent(operation) {
        return false, false;
      }
      shouldDrain := events.EnqueueEvent(InitFailed);
      return true, shouldDrain;
    }

    // ----- pkceflow.go: the schedule --------------------------------------------

    /** refreshScheduleLocked, for the current revision. */
    method EnsureSchedule()
      modifies this`refreshSchedule
      ensures refreshSchedule == CurrentSchedule(old(View()))
    {
      if !refreshSchedule.valid || refreshSchedule.revision != stateRevision {
        refreshSchedule := FreshSchedule(stateRevision);
      }
    }

    method NextRefreshLoopAction(now: Time) returns (action: LoopAction)
      modifies this`refreshSchedule, this`refreshClaimSeq, this`refreshWake
      ensures (View(), action) == NextRefresh(old(View()), now)
    {
      var wake := refreshWake;
      EnsureSchedule();
      if refreshSchedule.claimID != 0 {
        return WaitFor(0, wake);
      }
      match refreshSchedule.disposition {
        case BlockedExpired =>
          return WaitFor(0, wake);
        case BlockedPermanent | BlockedIntegrity =>
          if refreshSchedule.eventEmitted {
            return WaitFor(0, wake);
          }
          if now < refreshSchedule.eventAt {
            return WaitFor(refreshSchedule.eventAt, wake);
          }
          refreshSchedule := refreshSchedule.(eventEmitted := true);
          SignalRefreshLoop();
          return EmitExpired(stateRevision);
        case Active =>
      }
      var ready := Snapshot().Some?;
      if state.IsZero() || state.refreshToken == "" || !ready {
        return WaitFor(0, wake);
      }
      if state.expiresAt == 0 {
        return WaitFor(0, wake);
      }
      if state.expiresAt <= now {
        refreshSchedule := refreshSchedule.(disposition := BlockedExpired);
        SignalRefreshLoop();
        return WaitFor(0, refreshWake);
      }
      if state.lastAuthAt == 0 || state.expiresAt <= state.lastAuthAt {
        return WaitFor(0, wake);
      }
      var due, ok := RefreshStageTime(state, refreshSchedule.nextStage);
      if refreshSchedule.retryNotBefore > due {
        due := refreshSchedule.retryNotBefore;
      }
      if !ok || state.expiresAt <= due {
        refreshSchedule := refreshSchedule.(disposition := BlockedExpired);
        SignalRefreshLoop();
        return WaitFor(0, refreshWake);
      }
      if now < due {
        return WaitFor(due, wake);
      }
      refreshClaimSeq := refreshClaimSeq + 1;
      refreshSchedule := refreshSchedule.(claimID := refreshClaimSeq);
      action := Attempt(Claim(stateRevision, state, refreshSchedule.nextStage, refreshClaimSeq));
      SignalRefreshLoop();
    }

    method FinishRefreshLoopAttempt(claim: Claim, result: AttemptResult, completedAt: Time)
      modifies this`refreshSchedule, this`refreshWake
      ensures View() == FinishClaim(old(View()), claim, result, completedAt)
    {
      if !refreshSchedule.valid || refreshSchedule.revision != claim.revision
         || stateRevision != claim.revision || refreshSchedule.claimID != claim.id {
        return;
      }
      refreshSchedule := refreshSchedule.(claimID := 0);
      match result {
        case Temporary | CanceledAfterStart | Succeeded =>
          refreshSchedule := refreshSchedule.(
            nextStage := claim.stage + 1,
            retryNotBefore := completedAt + MIN_REFRESH_INTERVAL);
        case PermanentResult =>
          refreshSchedule := refreshSchedule.(
            disposition := BlockedPermanent,
            eventAt := SessionExpiredEventTime(grace, claim.state, completedAt));
        case IntegrityResult =>
          refreshSchedule := refreshSchedule.(disposition := BlockedIntegrity, eventAt := completedAt);
        case CanceledBeforeStart =>
        case ExpiredResult =>
          refreshSchedule := refreshSchedule.(disposition := BlockedExpired);
      }
      SignalRefreshLoop();
    }

    method BlockRefreshIntegrity(revision: nat, now: Time)
      modifies this`refreshSchedule, this`refreshWake
      ensures View() == BlockIntegrity(old(View()), revision, now)
    {
      if stateRevision != revision {
        return;
      }
      EnsureSchedule();
      if refreshSchedule.disposition != BlockedIntegrity || refreshSchedule.eventAt == 0
         || now < refreshSchedule.eventAt {
        refreshSchedule := refreshSchedule.(eventAt := now);
      }
      refreshSchedule := refreshSchedule.(disposition := BlockedIntegrity);
      SignalRefreshLoop();
    }

    method BlockRefreshPermanent(revision: nat, snapshot: TokenState, now: Time)
      modifies this`refreshSchedule, this`refreshWake
      ensures View() == BlockPermanent(old(View()), revision, snapshot, now)
    {
      if stateRevision != revision {
        return;
      }
      EnsureSchedule();
      if refreshSchedule.disposition == BlockedIntegrity {
        return;
      }
      var eventAt := SessionExpiredEventTime(grace, snapshot, now);
      if refreshSchedule.disposition != BlockedPermanent || refreshSchedule.eventAt == 0
         || eventAt < refreshSchedule.eventAt {
        refreshSchedule := refreshSchedule.(eventAt := eventAt);
      }
      refreshSchedule := refreshSchedule.(disposition := BlockedPermanent);
      SignalRefreshLoop();
    }

    method MarkRefreshInconclusive(revision: nat)
      modifies this`refreshSchedule
      ensures View() == MarkInconclusive(old(View()), revision)
    {
      if stateRevision != revision {
        return;
      }
      EnsureSchedule();
      refreshSchedule := refreshSchedule.(inconclusive := true);
    }

    // ----- refresh.go: attempts -------------------------------------------------

    /** One pass of beginRefreshAttempt for a caller whose context is live. A new attempt
        starts only when none is unfinished, and a running one is joined only for the
        same revision and while somebody still takes part. */
    method BeginRefreshAttempt(snapshot: TokenState, expectedRevision: nat, claimID: nat, now: Time)
      returns (result: BeginResult)
      modifies this`refreshAttempt, (if refreshAttempt == null then {} else {refreshAttempt})`participants
      ensures View() == old(View())
      ensures
        match Admit(View(), snapshot, expectedRevision, claimID, now)
        case Stale => result == Answer(None) && refreshAttempt == old(refreshAttempt)
        case Rejected(f) => result == Answer(Some(f)) && refreshAttempt == old(refreshAttempt)
        case Admitted =>
          if old(refreshAttempt) == null then
            && result.Lead? && fresh(result.leading) && refreshAttempt == result.leading
            && result.leading.revision == stateRevision && result.leading.snapshot == state
            && result.leading.participants == 1
          else if old(refreshAttempt).revision == stateRevision
                  && old(refreshAttempt.participants) > 0 then
            && result == Follow(old(refreshAttempt)) && refreshAttempt == old(refreshAttempt)
            && refreshAttempt.participants == old(refreshAttempt.participants) + 1
          else
            && result == WaitForDone(old(refreshAttempt)) && refreshAttempt == old(refreshAttempt)
      ensures old(refreshAttempt) != null && !result.Follow? ==>
                old(refreshAttempt).participants == old(refreshAttempt.participants)
    {
      if stateRevision != expectedRevision {
        return Answer(None);
      }
      if state != snapshot {
        return Answer(None);
      }
      if BlockedAs(View(), BlockedIntegrity) {
        return Answer(Some(IntegrityFailure));
      }
      if BlockedAs(View(), BlockedPermanent) {
        return Answer(Some(BlockedPermanently));
      }
      if claimID != 0 {
        if !refreshSchedule.valid || refreshSchedule.revision != stateRevision
           || refreshSchedule.claimID != claimID || refreshSchedule.disposition != Active {
          return Answer(None);
        }
        if snapshot.expiresAt <= now {
          return Answer(Some(ExpiredBeforeStart));
        }
      }
      if Snapshot().None? {
        return Answer(Some(Uninitialized));
      }
      var active := refreshAttempt;
      if active == null {
        var attempt := new RefreshAttempt(stateRevision, snapshot);
        refreshAttempt := attempt;
        return Lead(attempt);
      }
      if active.revision == stateRevision && active.participants > 0 {
        active.participants := active.participants + 1;
        return Follow(active);
      }
      return WaitForDone(active);
    }

    /** The last caller to leave the current attempt cancels it. */
    method ReleaseRefreshParticipant(attempt: RefreshAttempt)
      modifies attempt`participants, attempt`cancelled
      ensures attempt.participants == old(attempt.participants) - 1
      ensures attempt.cancelled ==
                (old(attempt.cancelled) || (attempt.participants == 0 && refreshAttempt == attempt))
    {
      attempt.participants := attempt.participants - 1;
      if attempt.participants == 0 && refreshAttempt == attempt {
        attempt.cancelled := true;
      }
    }

    /** The failure is recorded before another attempt can be admitted. */
    method FinishRefreshAttempt(attempt: RefreshAttempt, failure: Option<Failure>, now: Time)
      modifies this`refreshSchedule, this`refreshWake, this`refreshAttempt,
               attempt`cancelled, attempt`done, attempt`failure
      ensures View() ==
                if failure.None? then old(View())
                else RecordFailure(old(View()), attempt.revision, attempt.snapshot, failure.value,
                                   old(attempt.cancelled), now)
      ensures attempt.failure == failure && attempt.cancelled && attempt.done
      ensures refreshAttempt == if old(refreshAttempt) == attempt then null else old(refreshAttempt)
    {
      if failure.Some? {
        if failure.value.IntegrityFailure? {
          BlockRefreshIntegrity(attempt.revision, now);
        } else if Permanent(failure.value) {
          BlockRefreshPermanent(attempt.revision, attempt.snapshot, now);
        } else if attempt.cancelled && !ProviderAnswered(failure.value) {
          MarkRefreshInconclusive(attempt.revision);
        }
      }
      attempt.failure := failure;
      if refreshAttempt == attempt {
        refreshAttempt := null;
      }
      attempt.cancelled := true;
      attempt.done := true;
    }

    // ----- committing under stateCommitMu ---------------------------------------

    method RecordPersistenceSaveResult(revision: nat, failed: bool, completedAt: Time)
      modifies this`persistenceRetry, this`refreshWake
      ensures View() == RecordSave(old(View()), revision, failed, completedAt)
    {
      if !failed {
        return;
      }
      var delay, _ := PersistenceRetryDelay(1);
      if stateRevision == revision {
        persistenceRetry := Retry(true, revision, 1, completedAt + delay, 0);
        SignalRefreshLoop();
      }
    }

    /** Install, Save, record the result, enqueue the event: the tail shared by Login,
        refresh and refusal commits. */
    method CommitState(next: TokenState, event: EventName, outcome: WriteOutcome, now: Time)
      returns (failed: bool, shouldDrain: bool)
      modifies this`state, this`stateRevision, this`refreshSchedule, this`persistenceRetry,
               this`restoreBlocked, this`refreshWake, store, events
      ensures failed == outcome.failed
      ensures View() == RecordSave(Advance(old(View()), next), old(stateRevision) + 1, failed, now)
      ensures store.content == if failed then outcome.leftBehind else next
      ensures events.log == old(events.log) + [event]
      ensures shouldDrain == !old(events.eventDispatching)
      ensures store.content == state || RetryPending(View())
    {
      AdvanceState(next);
      var committedRevision := stateRevision;
      failed := store.Save(next, outcome);
      RecordPersistenceSaveResult(committedRevision, failed, now);
      shouldDrain := events.EnqueueEvent(event);
    }

    /** The fenced commit at the end of performRefresh (refresh.go:465-485). */
    method CommitRefresh(attempt: RefreshAttempt, next: TokenState, outcome: WriteOutcome, now: Time)
      returns (committed: bool, shouldDrain: bool)
      modifies this`state, this`stateRevision, this`refreshSchedule, this`persistenceRetry,
               this`restoreBlocked, this`refreshWake, store, events
      ensures committed == (old(stateRevision) == attempt.revision)
      ensures committed ==>
                && View() == RecordSave(Advance(old(View()), next), attempt.revision + 1, outcome.failed, now)
                && store.content == (if outcome.failed then outcome.leftBehind else next)
                && events.log == old(events.log) + [TokenRefreshed]
      ensures !committed ==>
                View() == old(View()) && store.content == old(store.content)
                && events.log == old(events.log) && !shouldDrain
    {
      if stateRevision != attempt.revision {
        return false, false;
      }
      var _, drain := CommitState(next, TokenRefreshed, outcome, now);
      return true, drain;
    }

    /** The refused generation replaces the current one exactly when the failure is the
        provider's refusal, the attempt's revision is still current and was never
        inconclusive, and the store is unreadable or not ahead. */
    method CommitCredentialRefusal(attempt: RefreshAttempt, failure: Option<Failure>, loadFails: bool,
                                   outcome: WriteOutcome, now: Time)
      returns (committed: bool, shouldDrain: bool)
      modifies this`state, this`stateRevision, this`refreshSchedule, this`persistenceRetry,
               this`restoreBlocked, this`refreshWake, store, events
      ensures committed <==>
                && failure == Some(InvalidGrant)
                && old(stateRevision) == attempt.revision
                && !old(MarkedInconclusive(View(), attempt.revision))
                && (loadFails || !Superseded(old(store.content), attempt.snapshot))
      ensures committed ==>
                && View() == RecordSave(Advance(old(View()), RefusedState(attempt.snapshot)),
                                        attempt.revision + 1, outcome.failed, now)
                && store.content == (if outcome.failed then outcome.leftBehind
                                     else RefusedState(attempt.snapshot))
                && events.log == old(events.log) + [SessionExpired]
      ensures !committed ==>
                View() == old(View()) && store.content == old(store.content)
                && events.log == old(events.log) && !shouldDrain
    {
      if failure != Some(InvalidGrant) {
        return false, false;
      }
      if stateRevision != attempt.revision {
        return false, false;
      }
      if MarkedInconclusive(View(), attempt.revision) {
        return false, false;
      }
      var persisted := store.content;
      if !loadFails && Superseded(persisted, attempt.snapshot) {
        return false, false;
      }
      var _, drain := CommitState(RefusedState(attempt.snapshot), SessionExpired, outcome, now);
      return true, drain;
    }

    /** emitEventIfRevision (events.go:92-108). */
    method EmitEventIfRevision(revision: nat, event: EventName) returns (current: bool, shouldDrain: bool)
      modifies events
      ensures current == (stateRevision == revision)
      ensures events.log == if current then old(events.log) + [event] else old(events.log)
      ensures shouldDrain == (current && !old(events.eventDispatching))
    {
      current := stateRevision == revision;
      shouldDrain := false;
      if current {
        shouldDrain := events.EnqueueEvent(event);
      }
    }

    // ----- lifecycle.go, login.go, logout.go ------------------------------------

    predicate OperationCurrent(operation: LifecycleOperation) reads this, operation {
      lifecycleOperation == operation && !operation.ended && !operation.cancelled
    }

    /** Admission supersedes the operation before it. */
    method BeginLifecycleOperation(kind: OperationKind) returns (operation: LifecycleOperation)
      modifies this`lifecycleSeq, this`lifecycleOperation,
               (if lifecycleOperation == null then {} else {lifecycleOperation})`cancelled
      ensures fresh(operation) && operation.kind == kind && OperationCurrent(operation)
      ensures operation.id == lifecycleSeq == old(lifecycleSeq) + 1
      ensures old(lifecycleOperation) != null ==>
                !OperationCurrent(old(lifecycleOperation)) && old(lifecycleOperation).cancelled
    {
      if lifecycleOperation != null {
        lifecycleOperation.cancelled := true;
      }
      lifecycleSeq := lifecycleSeq + 1;
      operation := new LifecycleOperation(lifecycleSeq, kind);
      lifecycleOperation := operation;
    }

    method FinishLifecycleOperation(operation: LifecycleOperation)
      modifies this`lifecycleOperation, operation`cancelled
      ensures lifecycleOperation ==
                if old(lifecycleOperation) == operation then null else old(lifecycleOperation)
      ensures !OperationCurrent(operation)
    {
      if lifecycleOperation == operation && lifecycleOperation.id == operation.id {
        lifecycleOperation := null;
      }
      operation.cancelled := true;
    }

    /** commitLoginState; `endsWhileWaiting` says that the operation's context ends while
        it waits for the commit lock. */
    method CommitLoginState(operation: LifecycleOperation, next: TokenState, endsWhileWaiting: bool,
                            outcome: WriteOutcome, now: Time)
      returns (committed: bool, failed: bool, shouldDrain: bool)
      modifies this`state, this`stateRevision, this`refreshSchedule, this`persistenceRetry,
               this`restoreBlocked, this`refreshWake, store, events, operation`ended
      ensures committed == (old(OperationCurrent(operation)) && !endsWhileWaiting)
      ensures committed ==>
                && failed == outcome.failed
                && View() == RecordSave(Advance(old(View()), next), old(stateRevision) + 1, failed, now)
                && store.content == (if failed then outcome.leftBehind else next)
                && events.log == old(events.log) + [LoggedIn]
      ensures !committed ==>
                View() == old(View()) && store.content == old(store.content)
                && events.log == old(events.log)
    {
      if !OperationCurrent(operation) {
        return false, false, false;
      }
      operation.ended := operation.ended || endsWhileWaiting;
      if !OperationCurrent(operation) {
        return false, false, false;
      }
      failed, shouldDrain := CommitState(next, LoggedIn, outcome, now);
      committed := true;
    }

    /** The local part of Logout, up to the release of lifecycleMu. A Logout that finds
        another one current returns without an operation. */
    method LogoutLocally(outcome: WriteOutcome)
      returns (operation: LifecycleOperation?, shouldDrain: bool)
      modifies this`state, this`stateRevision, this`refreshSchedule, this`persistenceRetry,
               this`restoreBlocked, this`refreshWake, this`lifecycleSeq, this`lifecycleOperation,
               (if lifecycleOperation == null then {} else {lifecycleOperation})`cancelled, store, events
      ensures operation == null <==>
                old(lifecycleOperation) != null && old(lifecycleOperation).kind == LogoutOperation
      ensures operation == null ==>
                View() == old(View()) && store.content == old(store.content)
                && events.log == old(events.log) && lifecycleOperation == old(lifecycleOperation)
      ensures operation != null ==>
                && fresh(operation) && OperationCurrent(operation)
                && operation.id == lifecycleSeq == old(lifecycleSeq) + 1
                && View() == ClearForLogout(old(View()))
                && store.content == (if outcome.failed then outcome.leftBehind else ZERO)
                && events.log == old(events.log) + [LoggedOut]
                && shouldDrain == !old(events.eventDispatching)
    {
      if lifecycleOperation != null && lifecycleOperation.kind == LogoutOperation {
        return null, false;
      }
      operation := BeginLifecycleOperation(LogoutOperation);
      shouldDrain := ClearCommitted(outcome);
    }

    /** The commit of Logout under stateCommitMu (logout.go:72-86). */
    method ClearCommitted(outcome: WriteOutcome) returns (shouldDrain: bool)
      modifies this`state, this`stateRevision, this`refreshSchedule, this`persistenceRetry,
               this`restoreBlocked, this`refreshWake, store, events
      ensures View() == ClearForLogout(old(View()))
      ensures store.content == if outcome.failed then outcome.leftBehind else ZERO
      ensures events.log == old(events.log) + [LoggedOut]
      ensures shouldDrain == !old(events.eventDispatching)
    {
      SetState(ZERO);
      persistenceRetry := NO_RETRY;
      restoreBlocked := true;
      SignalRefreshLoop();
      var _ := store.Delete(outcome);
      shouldDrain := events.EnqueueEvent(LoggedOut);
    }

    // ----- persistence.go -------------------------------------------------------

    method NextPersistenceRetryAction(now: Time) returns (action: PersistenceAction)
      modifies this`persistenceRetry, this`persistenceClaimSeq, this`refreshWake
      ensures (View(), action) == NextPersistence(old(View()), now)
    {
      var wake := refreshWake;
      if !persistenceRetry.valid {
        return PersistWait(0, wake);
      }
      if persistenceRetry.revision != stateRevision {
        persistenceRetry := NO_RETRY;
        return PersistWait(0, wake);
      }
      if persistenceRetry.claimID != 0 {
        return PersistWait(0, wake);
      }
      if now < persistenceRetry.retryAt {
        return PersistWait(persistenceRetry.retryAt, wake);
      }
      persistenceClaimSeq := persistenceClaimSeq + 1;
      persistenceRetry := persistenceRetry.(claimID := persistenceClaimSeq);
      action := PersistClaim(persistenceRetry.revision, persistenceClaimSeq);
      SignalRefreshLoop();
    }

    /** retryPersistence: a claim that no longer matches calls no Save; otherwise the
        current state is written and the dirty mark is dropped or moved. */
    method RetryPersistence(revision: nat, id: nat, ctxDone: bool, outcome: WriteOutcome, completedAt: Time)
      modifies this`persistenceRetry, this`refreshWake, store
      ensures !old(HoldsRetryClaim(View(), revision, id)) ==>
                View() == old(View()) && store.content == old(store.content)
      ensures old(HoldsRetryClaim(View(), revision, id)) && ctxDone ==>
                View() == AbandonRetry(old(View())) && store.content == old(store.content)
      ensures old(HoldsRetryClaim(View(), revision, id)) && !ctxDone ==>
                && View() == FinishRetry(old(View()), revision, id, outcome.failed, completedAt)
                && store.content == (if outcome.failed then outcome.leftBehind else state)
                && (store.content == state || RetryPending(View()))
    {
      if !HoldsRetryClaim(View(), revision, id) {
        return;
      }
      if ctxDone {
        persistenceRetry := persistenceRetry.(claimID := 0);
        SignalRefreshLoop();
        return;
      }
      var failed := store.Save(state, outcome);
      if HoldsRetryClaim(View(), revision, id) {
        if !failed {
          persistenceRetry := NO_RETRY;
        } else {
          persistenceRetry := persistenceRetry.(failures := persistenceRetry.failures + 1);
          var retryIn, _ := PersistenceRetryDelay(persistenceRetry.failures);
          persistenceRetry := persistenceRetry.(retryAt := completedAt + retryIn, claimID := 0);
        }
        SignalRefreshLoop();
      }
    }

    // ----- accesstoken.go -------------------------------------------------------

    /** AccessToken, with what its refresh reports -- None or an error -- and the generation
        that the refresh, or anybody else, installs while the call is under way. */
    method AccessToken(readAt: Time, meanwhile: Option<TokenState>, refresh: Option<Failure>,
                       decidedAt: Time)
      returns (token: string)
      modifies this`state, this`stateRevision, this`refreshSchedule, this`persistenceRetry,
               this`restoreBlocked, this`refreshWake
      ensures old(state).IsZero() || old(BlockedAs(View(), BlockedIntegrity)) ==>
                token == "" && View() == old(View())
      ensures !old(state).IsZero() && !old(BlockedAs(View(), BlockedIntegrity)) ==>
                if Fresh(old(state), readAt) then token == old(state).accessToken && View() == old(View())
                else if || old(state).refreshToken == "" || old(BlockedAs(View(), BlockedPermanent))
                        || old(View()).discovery.None? then
                  token == UsableToken(View(), decidedAt) && View() == old(View())
                else
                  var found := if meanwhile.Some? then Advance(old(View()), meanwhile.value)
                               else old(View());
                  match refresh
                  case None => token == found.state.accessToken && View() == found
                  case Some(f) =>
                    if f.IntegrityFailure? then
                      && token == ""
                      && View() == BlockIntegrity(found, old(stateRevision), decidedAt)
                    else
                      && View() == (if Permanent(f)
                                    then BlockPermanent(found, old(stateRevision), old(state), decidedAt)
                                    else found)
                      && token == UsableToken(View(), decidedAt)
    {
      var current, revision := state, stateRevision;
      var parked := BlockedAs(View(), BlockedPermanent);
      if current.IsZero() || BlockedAs(View(), BlockedIntegrity) {
        return "";
      }
      if readAt < current.expiresAt - TOKEN_EXPIRY_BUFFER {
        return current.accessToken;
      }
      if current.refreshToken != "" && !parked {
        if Snapshot().Some? {
          if meanwhile.Some? {
            AdvanceState(meanwhile.value);
          }
          match refresh {
            case None => return state.accessToken;
            case Some(f) =>
              if f.IntegrityFailure? {
                BlockRefreshIntegrity(revision, decidedAt);
                return "";
              }
              if Permanent(f) {
                BlockRefreshPermanent(revision, current, decidedAt);
              }
          }
        }
      }
      token := UsableAccessToken(decidedAt);
    }
  }
}
