/**
 The part of a Client that `Client.mu` guards, as a value, and what each critical
 section does to it. Class Client (Client.dfy) implements these functions
 step by step; the transition system (Protocol.dfy) runs them concurrently.

 A wake channel is identified by its position in the close-and-replace sequence:
 channel `w` is closed exactly when `w < wake`.
*/
module ClientCore {
  import opened Basics
  import opened Errors
  import opened StageTimes
  import opened Tokens

  datatype Disposition = Active | BlockedExpired | BlockedPermanent | BlockedIntegrity

  // pkceflow.go:54-69
  datatype Schedule = Schedule(
    valid: bool,
    revision: nat,
    nextStage: nat,
    retryNotBefore: Time,
    claimID: nat,
    disposition: Disposition,
    eventAt: Time,
    eventEmitted: bool,
    inconclusive: bool)

  const NO_SCHEDULE := Schedule(false, 0, 0, 0, 0, Active, 0, false, false)

  function FreshSchedule(revision: nat): Schedule {
    Schedule(true, revision, 1, 0, 0, Active, 0, false, false)
  }

  // persistence.go:15-21
  datatype Retry = Retry(valid: bool, revision: nat, failures: nat, retryAt: Time, claimID: nat)

  const NO_RETRY := Retry(false, 0, 0, 0, 0)

  // client.go:311-317
  datatype Discovery = Discovery(
    provider: nat,
    verifier: nat,
    oauth2: nat,
    endSessionEndpoint: string,
    revocationEndpoint: string)

  /** The subject that an ID token names, None when it does not decode (claims.go:70-108).
      It is a fixed function of the token's text. */
  type Decoder = string -> Option<string>

  datatype Core = Core(
    state: TokenState,
    revision: nat,
    schedule: Schedule,
    retry: Retry,
    restoreBlocked: bool,
    wake: nat,
    refreshClaimSeq: nat,
    persistenceClaimSeq: nat,
    discovery: Option<Discovery>,
    grace: nat,
    subjectOf: Decoder)

  function NewCore(grace: nat, subjectOf: Decoder): Core {
    Core(ZERO, 0, NO_SCHEDULE, NO_RETRY, false, 0, 0, 0, None, grace, subjectOf)
  }

  // ----- state generations ------------------------------------------------------

  function Signal(c: Core): Core {
    c.(wake := c.wake + 1)
  }

  function Advance(c: Core, state: TokenState): Core {
    Signal(c.(state := state,
              revision := c.revision + 1,
              schedule := NO_SCHEDULE,
              retry := NO_RETRY,
              restoreBlocked := false))
  }

  function SetState(c: Core, state: TokenState): Core {
    if c.state == state then c else Advance(c, state)
  }

  /** The critical section of Logout (logout.go:79-82). */
  function ClearForLogout(c: Core): Core {
    Signal(SetState(c, ZERO).(retry := NO_RETRY, restoreBlocked := true))
  }

  function CommitDiscovery(c: Core, snapshot: Discovery): Core {
    Signal(c.(discovery := Some(snapshot)))
  }

  // ----- what a reader sees -----------------------------------------------------

  predicate BlockedAs(c: Core, d: Disposition) {
    c.schedule.valid && c.schedule.revision == c.revision && c.schedule.disposition == d
  }

  predicate Parked(c: Core) {
    BlockedAs(c, BlockedPermanent) || BlockedAs(c, BlockedIntegrity)
  }

  predicate MarkedInconclusive(c: Core, revision: nat) {
    c.schedule.valid && c.schedule.revision == revision && c.schedule.inconclusive
  }

  // state.go:22-37
  datatype AuthStatusResult = AuthStatusResult(
    valid: bool,
    graceMode: bool,
    graceDaysLeft: nat,
    canUseApp: bool)

  const UNUSABLE := AuthStatusResult(false, false, 0, false)

  function Status(c: Core, now: Time): AuthStatusResult {
    if c.state.IsZero() || BlockedAs(c, BlockedIntegrity) then UNUSABLE
    else
      var valid := Fresh(c.state, now);
      var graceMode := !valid && InGrace(c.state, c.grace, now);
      var days := if graceMode then (c.state.lastAuthAt + c.grace - now) / DAY else 0;
      AuthStatusResult(valid, graceMode, days, valid || graceMode)
  }

  function UsableToken(c: Core, now: Time): string {
    if c.state.IsZero() || BlockedAs(c, BlockedIntegrity) then ""
    else if Fresh(c.state, now) || InGrace(c.state, c.grace, now) then c.state.accessToken
    else ""
  }

  // ----- the refresh schedule ---------------------------------------------------

  function CurrentSchedule(c: Core): Schedule {
    if c.schedule.valid && c.schedule.revision == c.revision then c.schedule
    else FreshSchedule(c.revision)
  }

  datatype LoopAction =
    | WaitFor(due: Time, wake: nat)
    | Attempt(claim: Claim)
    | EmitExpired(revision: nat)

  datatype Claim = Claim(revision: nat, state: TokenState, stage: nat, id: nat)

  function Expire(c: Core): (Core, LoopAction) {
    var next := Signal(c.(schedule := c.schedule.(disposition := BlockedExpired)));
    (next, WaitFor(0, next.wake))
  }

  /** The supervisor's decision (pkceflow.go:228-325). */
  function NextRefresh(c: Core, now: Time): (Core, LoopAction) {
    var s := CurrentSchedule(c);
    var cur := c.(schedule := s);
    var idle := (cur, WaitFor(0, c.wake));
    if s.claimID != 0 || s.disposition.BlockedExpired? then idle
    else if !s.disposition.Active? then
      if s.eventEmitted then idle
      else if now < s.eventAt then (cur, WaitFor(s.eventAt, c.wake))
      else (Signal(cur.(schedule := s.(eventEmitted := true))), EmitExpired(c.revision))
    else if c.state.IsZero() || c.state.refreshToken == "" || c.discovery.None? then idle
    else if c.state.expiresAt == 0 then idle
    else if c.state.expiresAt <= now then Expire(cur)
    else if c.state.lastAuthAt == 0 || c.state.expiresAt <= c.state.lastAuthAt then idle
    else
      match StageTime(c.state, s.nextStage)
      case None => Expire(cur)
      case Some(stageDue) =>
        var due: Time := if stageDue < s.retryNotBefore then s.retryNotBefore else stageDue;
        if c.state.expiresAt <= due then Expire(cur)
        else if now < due then (cur, WaitFor(due, c.wake))
        else
          var id := c.refreshClaimSeq + 1;
          (Signal(cur.(refreshClaimSeq := id, schedule := s.(claimID := id))),
           Attempt(Claim(c.revision, c.state, s.nextStage, id)))
  }

  // pkceflow.go:174-184
  datatype AttemptResult =
    | Succeeded
    | Temporary
    | PermanentResult
    | IntegrityResult
    | CanceledBeforeStart
    | CanceledAfterStart
    | ExpiredResult

  /** How the supervisor reads a refresh error (pkceflow.go:407-430). */
  function ReadResult(failure: Option<Failure>, started: bool, ctxDone: bool): AttemptResult {
    if failure.None? then Succeeded
    else if failure.value.ExpiredBeforeStart? then ExpiredResult
    else if failure.value.IntegrityFailure? then IntegrityResult
    else if Permanent(failure.value) then PermanentResult
    else if ctxDone then (if started then CanceledAfterStart else CanceledBeforeStart)
    else Temporary
  }

  function SessionExpiredEventTime(grace: nat, state: TokenState, now: Time): Time {
    if InGrace(state, grace, now) then state.lastAuthAt + grace else now
  }

  predicate HoldsRefreshClaim(c: Core, claim: Claim) {
    && c.schedule.valid
    && c.schedule.revision == claim.revision
    && c.revision == claim.revision
    && c.schedule.claimID == claim.id
  }

  /** Releasing a claim and recording its result (pkceflow.go:433-470). Stages are
      unbounded, so the source's wrap-around branch at pkceflow.go:478 is absent. */
  function FinishClaim(c: Core, claim: Claim, result: AttemptResult, completedAt: Time): Core {
    if !HoldsRefreshClaim(c, claim) then c
    else
      var s := c.schedule.(claimID := 0);
      var next :=
        match result
        case Temporary | CanceledAfterStart | Succeeded =>
          s.(nextStage := claim.stage + 1, retryNotBefore := completedAt + MIN_REFRESH_INTERVAL)
        case PermanentResult =>
          s.(disposition := BlockedPermanent,
             eventAt := SessionExpiredEventTime(c.grace, claim.state, completedAt))
        case IntegrityResult => s.(disposition := BlockedIntegrity, eventAt := completedAt)
        case CanceledBeforeStart => s
        case ExpiredResult => s.(disposition := BlockedExpired);
      Signal(c.(schedule := next))
  }

  function BlockIntegrity(c: Core, revision: nat, now: Time): Core {
    if c.revision != revision then c
    else
      var s := CurrentSchedule(c);
      var at := if !s.disposition.BlockedIntegrity? || s.eventAt == 0 || now < s.eventAt
                then now else s.eventAt;
      Signal(c.(schedule := s.(eventAt := at, disposition := BlockedIntegrity)))
  }

  function BlockPermanent(c: Core, revision: nat, state: TokenState, now: Time): Core {
    if c.revision != revision then c
    else
      var s := CurrentSchedule(c);
      if s.disposition.BlockedIntegrity? then c.(schedule := s)
      else
        var eventAt := SessionExpiredEventTime(c.grace, state, now);
        var at := if !s.disposition.BlockedPermanent? || s.eventAt == 0 || eventAt < s.eventAt
                  then eventAt else s.eventAt;
        Signal(c.(schedule := s.(eventAt := at, disposition := BlockedPermanent)))
  }

  function MarkInconclusive(c: Core, revision: nat): Core {
    if c.revision != revision then c
    else c.(schedule := CurrentSchedule(c).(inconclusive := true))
  }

  // ----- starting an attempt ----------------------------------------------------

  datatype Admission =
    | Stale                       // return the current state and no error
    | Rejected(failure: Failure)
    | Admitted

  /** The checks of beginRefreshAttempt that only need `mu` (refresh.go:209-259).
      `claimID` 0 means that no scheduler claim is presented. */
  function Admit(c: Core, snapshot: TokenState, expectedRevision: nat, claimID: nat, now: Time)
    : Admission
  {
    if c.revision != expectedRevision then Stale
    else if c.state != snapshot then Stale
    else if BlockedAs(c, BlockedIntegrity) then Rejected(IntegrityFailure)
    else if BlockedAs(c, BlockedPermanent) then Rejected(BlockedPermanently)
    else if claimID != 0
            && (|| !c.schedule.valid
                || c.schedule.revision != c.revision
                || c.schedule.claimID != claimID
                || !c.schedule.disposition.Active?) then Stale
    else if claimID != 0 && snapshot.expiresAt <= now then Rejected(ExpiredBeforeStart)
    else if c.discovery.None? then Rejected(Uninitialized)
    else Admitted
  }

  /** What a failed attempt leaves behind before the next one can be admitted
      (refresh.go:329-351). */
  function RecordFailure(c: Core, revision: nat, snapshot: TokenState, failure: Failure,
                         abandoned: bool, now: Time): Core
  {
    if failure.IntegrityFailure? then BlockIntegrity(c, revision, now)
    else if Permanent(failure) then BlockPermanent(c, revision, snapshot, now)
    else if abandoned && !ProviderAnswered(failure) then MarkInconclusive(c, revision)
    else c
  }

  // ----- what the token endpoint may answer -------------------------------------

  /** A token response; `verified` says that its ID token, if any, passes verification. */
  datatype TokenResponse = TokenResponse(
    accessToken: string,
    refreshToken: string,
    idToken: string,
    verified: bool,
    expiresAt: Time)

  /** refresh.go:398-463: the new state, or None for an integrity failure. */
  function RefreshedState(subjectOf: Decoder, snapshot: TokenState, r: TokenResponse, now: Time)
    : Option<TokenState>
  {
    var refreshToken := if r.refreshToken == "" then snapshot.refreshToken else r.refreshToken;
    if r.idToken == "" then
      Some(TokenState(r.accessToken, refreshToken, snapshot.idToken, r.expiresAt, now))
    else
      var subject := subjectOf(r.idToken);
      if !r.verified || subject.None? || subject.value == "" || snapshot.idToken == "" then None
      else
        var held := subjectOf(snapshot.idToken);
        if held.None? || held.value == "" || subject != held then None
        else Some(TokenState(r.accessToken, refreshToken, r.idToken, r.expiresAt, now))
  }

  // ----- the persistence retry --------------------------------------------------

  datatype PersistenceAction =
    | PersistWait(due: Time, wake: nat)
    | PersistClaim(revision: nat, id: nat)

  /** persistence.go:31-52. */
  function RecordSave(c: Core, revision: nat, failed: bool, completedAt: Time): Core {
    if !failed || c.revision != revision then c
    else Signal(c.(retry := Retry(true, revision, 1, completedAt + RetryDelay(1), 0)))
  }

  /** persistence.go:93-128. */
  function NextPersistence(c: Core, now: Time): (Core, PersistenceAction) {
    if !c.retry.valid then (c, PersistWait(0, c.wake))
    else if c.retry.revision != c.revision then (c.(retry := NO_RETRY), PersistWait(0, c.wake))
    else if c.retry.claimID != 0 then (c, PersistWait(0, c.wake))
    else if now < c.retry.retryAt then (c, PersistWait(c.retry.retryAt, c.wake))
    else
      var id := c.persistenceClaimSeq + 1;
      (Signal(c.(persistenceClaimSeq := id, retry := c.retry.(claimID := id))),
       PersistClaim(c.retry.revision, id))
  }

  predicate HoldsRetryClaim(c: Core, revision: nat, id: nat) {
    && c.retry.valid
    && c.retry.revision == revision
    && c.retry.claimID == id
    && c.revision == revision
  }

  function AbandonRetry(c: Core): Core {
    Signal(c.(retry := c.retry.(claimID := 0)))
  }

  /** persistence.go:158-172. */
  function FinishRetry(c: Core, revision: nat, id: nat, failed: bool, completedAt: Time): Core {
    if !HoldsRetryClaim(c, revision, id) then c
    else if !failed then Signal(c.(retry := NO_RETRY))
    else
      var failures := c.retry.failures + 1;
      Signal(c.(retry := c.retry.(failures := failures,
                                  retryAt := completedAt + RetryDelay(failures),
                                  claimID := 0)))
  }

  /** An authoritative, not yet saved generation keeps the store's older content
      out (client.go:226-232). */
  predicate RetryPending(c: Core) {
    c.retry.valid && c.retry.revision == c.revision
  }
}
