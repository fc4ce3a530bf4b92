# pkceflow: the token-generation protocol, modelled and proved

One `Client` of the library holds a token state that Login, Logout, RestoreSession,
on-demand refreshes, a background scheduler, credential refusals and persistence retries
change concurrently. Every state is a *generation* with a revision; locks, revision fences,
claims, shared attempts and a close-and-replace wake channel keep the writers apart. This
project models that protocol and proves what it keeps over every run, together with three
smaller protocols of the library: the mobile and desktop browser callbacks, and the
first-writer-wins fallback key. `dafny verify dfyconfig.toml` checks everything.

## How it is built

* `Tokens`, `Errors`, `StageTimes`, `Core` hold the data and, for each critical section of the
  source, a function on the part of a Client that `mu` guards.
* `Client` is the object: classes with the source's fields, whose methods do what the
  source's methods do, step by step and with its loops, and are proved to have exactly the
  effect of the functions in `Core`. `Events`, `AtomicFile`, `MobileFlow`, `DesktopFlow` and
  `Query` contain the other objects and loops.
* `Protocol` is a transition system over any number of threads. Its steps are the same
  functions. The environment is free: the token endpoint may answer anything, a failing Save or
  Delete leaves any content in the store, contexts end at any time, threads stop for good at
  any place, and the clock only moves forward. Histories that no step reads (all
  generations, the event log, admitted and committed operations, claims, starts) are part of
  the state so that properties of whole runs can be stated.
* `Places` to `Retries` prove invariants of that system by rely and guarantee: what one
  thread's step keeps for itself, and what it leaves alone for all others. `CoreEvents` shows
  that every step changes the guarded state by one of the sections of `Core`, so that facts
  about one section hold of every step.
* The `...Theorems` files state the results over runs: what never happens, and when exactly each
  decision is taken. `Unparking`, `StaleAnswer` and `LateEvent` are concrete runs.
* `LockOrder` models which mutexes every operation takes, in which order.
* `FallbackKey`, `MobileProtocol` and `Broking` are further transition systems.

## Four places where the code does less than one might expect

* A revision that is parked as permanently refused or as an integrity failure stays parked, with
  one exception: the supervisor's release of a claim as "expired before start" resets it
  (pkceflow.go:461-462 does not look at the disposition). `ParkingTheorems.UnparkingIsExact`
  shows that this is the only step that does so, and `IntegrityTheorems.UnparkedOnce` that it happens
  at most once for a revision. `Unparking.ParkedRevisionIsPresentedAgain` gives a run in which the
  refresh token of a parked revision is then presented once more.
* AuthStatus and AccessToken are documented never to report a session usable, nor to return its token,
  after it failed its integrity check (client.go:165-167, accesstoken.go:14-16). Two things break that.
  The release above also resets an integrity failure: in `Unparking.FailedTokenIsHandedOut` the
  session is usable again and a new call is answered with the expired token of the failed generation.
  And a call whose revision was replaced while it waited is given whatever memory holds, as is one whose
  attempt succeeded (refresh.go:209-220 and 299-307, accesstoken.go:58-60): in
  `StaleAnswer.ParkedTokenIsHandedOut` that is the expired token of a generation that has been parked
  meanwhile. `IntegrityTheorems.FailedAnswersAreExact` lists all steps that answer with a token while
  a failed generation is current, before and after the release.
* Parking a generation again keeps the earliest time of its event (pkceflow.go:529-537 and 561-569),
  but the supervisor's release of its claim overwrites that time with its own (pkceflow.go:454-458):
  `ExpiryTheorems.EventMovesEarlier` has the exact condition and `LateEvent.EventMovesLater` a run.
* The desktop broker's comment says that a NUL cannot occur in a callback path or state. A decoded
  one may hold it; `DesktopFlow.KeysSeparateIff` gives the exact condition under which keys
  separate flows. Because a flow removes its waiter by key, a second flow with the same path and
  state can lose its waiter to the first (`Broking.SameKeyLosesWaiter`); it keeps it exactly under
  the condition of `Broking.FlowKeepsItsChannel`.

## Model

| member | source | states |
|---|---|---|
| SessionTheorems.Durability | refresh.go:465-479 | Whenever no commit is in progress and the Client has installed a state, the store holds that state, or a retry is pending for exactly the current revision, or the Client is logged out and never reads the store again; for any pattern of failing writes |
| SessionTheorems.RestoreKeepsMemory | client.go:218-251 | Once the Client has installed a state, a Load that RestoreSession acts on returns exactly the state in memory, so RestoreSession changes nothing |
| InstallTheorems.LoginInstallsItsTokens | login.go:141-252 | A Login commits if and only if its operation is current and live once the commit lock is taken, and installs the very tokens of its own exchange |
| InstallTheorems.OperationsAreFenced | lifecycle.go:60-171 | At each earlier wait an operation goes on if and only if it is current and live, and gives the permit back otherwise |
| InstallTheorems.RestoreIsExact | client.go:218-251 | RestoreSession loads if and only if neither a Logout nor an owed Save forbids it, goes on if and only if tokens were loaded, and leaves memory equal to the store |
| InstallTheorems.LogoutIsExact | logout.go:64-87 | A Logout is turned away if and only if another one is current; its commit empties memory, forgets an owed Save and blocks RestoreSession |
| SessionTheorems.NoResurrection | logout.go:64-87 | From a Logout commit on, memory stays empty and no Save is issued until a Login admitted after that Logout commits, whatever else is in flight |
| SessionTheorems.TombstoneStep | client.go:218-251 | One step under the tombstone issues no Save and either keeps it or is the commit of a newer Login |
| SessionTheorems.LifecycleCommitsInOrder | lifecycle.go:26-94 | Committed Login and Logout ids strictly increase, and each is the newest one admitted when it commits |
| SessionTheorems.CoalescedLogout | logout.go:64-71 | A Logout that finds another one current returns only when memory is empty and the tombstone of that Logout stands |
| SessionTheorems.OneFlowHandler | lifecycle.go:147-171 | At most one flow-handler call of a Client runs at a time |
| EventTheorems.EventsFollowGenerations | events.go:58-108 | Token-state events are queued in the order of the generations they report, which each reporter carries from its own commit |
| EventTheorems.EventsAreExact | events.go:92-108 | A step queues at most one event; a token-state event of Login, Logout, refresh or refusal reports the generation its own commit installed, with no other token-state event in between, and an expiry reports the current generation the supervisor claimed it for; every commit, every failed Init and every claimed expiry of a current generation queues its event |
| EventTheorems.CommitBehind | refresh.go:162-175 | Whoever is about to report a generation committed exactly that one, and under the commit lock neither the generation nor the queue of token-state events has moved since |
| SessionTheorems.InitCommitsInOrder | client.go:402-474 | Discovery is replaced all at once, only by the newest admitted Init, and Init commits follow admission order |
| InstallTheorems.InitIsExact | client.go:402-474 | An Init can install its snapshot, all of it, if and only if it is the newest one admitted and not cancelled |
| AttemptTheorems.SingleFlight | refresh.go:196-292 | At most one refresh attempt is at work at any time, and it is the current one |
| AttemptTheorems.NoOverlap | refresh.go:260-285 | A new attempt starts only when every earlier one has finished, for the current generation, which holds a refresh token and is not parked |
| AttemptTheorems.ParticipantsCountWaiters | refresh.go:314-321 | `participants` is exactly the number of callers that joined and have not left |
| AttemptTheorems.AbandonedForGood | refresh.go:278-291 | An attempt that everybody left is cancelled, is never joined again, and blocks new attempts until it has finished |
| AttemptTheorems.RevisionFence | client.go:264-271 | While an attempt's revision is current, memory holds exactly the state it presents, and its callers asked about that generation |
| EntryTheorems.CallersAreAdmitted | refresh.go:196-285 | An AccessToken call leads a new attempt if and only if its generation is current, not parked and discovered, and none is unfinished; it joins if and only if the running one serves that generation and is still waited for; otherwise it waits, is refused, or is answered from memory, each exactly when the source says |
| EntryTheorems.SupervisorsAreAdmitted | refresh.go:222-259 | A supervisor leads or joins if and only if a caller would and, besides, its claim is the one that is out, the schedule is active and the tokens have not expired; otherwise its result says why |
| EntryTheorems.CanLead | refresh.go:260-275 | Under these conditions the step that leads a new attempt is available |
| EntryTheorems.AbandonedIsAttemptedAgain | refresh.go:278-291 | The step that ends an abandoned attempt marks its revision inconclusive, and right after it any caller can lead another attempt of that generation |
| EntryTheorems.AskingIsExact | accesstoken.go:32-79 | A call asks for a refresh if and only if what it read has at most thirty seconds to live, has a refresh token and was not parked, and discovery is there; how failures and a cancelled wait lead on |
| EntryTheorems.OutcomesAreRead | refresh.go:294-307 | A finished attempt answers its callers from memory or with its failure, and gives its supervisor the result of the failure's class |
| AttemptTheorems.ClaimsAreExclusive | pkceflow.go:311-324 | A refresh claim, and likewise a persistence claim, is out exactly while one runner holds a matching action |
| AttemptTheorems.ClaimsDoNotLeak | pkceflow.go:433-470 | A refresh claim ends only by its holder's release or a new generation |
| AttemptTheorems.RetryClaimsDoNotLeak | persistence.go:130-174 | A persistence claim ends only by its holder's release, a new generation or Logout |
| AttemptTheorems.VoidedActionIsInert | persistence.go:134-147 | A voided refresh or persistence action changes nothing and calls no Save |
| GrantTheorems.RefreshKeepsTheSession | refresh.go:398-485 | A refresh commits exactly what the provider answered to that very attempt, for the current generation: its access token and expiry, the rotated refresh token or else the held one, an ID token of the same subject, and the time of the answer |
| GrantTheorems.SubjectNeverChanges | refresh.go:404-453 | Between commits of Login, RestoreSession or Logout the subject of the held ID token never changes, over any chain of refreshes and refusals |
| GrantTheorems.AnswerBehind | refresh.go:376-463 | Tokens waiting to be committed are those of the answer to the attempt's own grant for the snapshot it presented, field by field |
| GrantTheorems.GrantIsExact | refresh.go:398-453 | An answer is accepted if and only if it has no ID token, or a verified one whose non-empty subject is the held one's; any other is an integrity failure |
| GrantTheorems.CommitIsExact | refresh.go:465-473 | An accepted answer is installed if and only if its revision is still current |
| GrantTheorems.FailuresAreFenced | refresh.go:487-496 | A failed grant counts only for its own revision: invalid_grant goes on to the refusal check, other failures end the attempt, stale ones end it without an error |
| GrantTheorems.NextAttemptPresents | refresh.go:376-403 | Attempts that start after a committed refresh present the rotated refresh token, or the old one if the answer had none |
| RedemptionTheorems.RedeemedOnce | refresh.go:362-485 | Once the token endpoint has answered a revision's refresh token with tokens, no attempt of that revision starts and no other such answer arrives for it, unless the revision is un-parked in between |
| RedemptionTheorems.RedeemedTwiceAtMost | refresh.go:196-485 | The refresh token of a revision is answered with tokens at most twice, and no attempt of the revision starts after that |
| RefusalTheorems.RefusalIsExact | refresh.go:109-194 | Each section of the refusal decides exactly by: revision current and never inconclusive; store unreadable, without a refresh token, with the attempted one, or with one from no later authentication; the last revision check cannot fail, and only the ID token is kept |
| RefusalTheorems.RefusalIsJustified | refresh.go:109-181 | A refused generation is committed only after the provider said invalid_grant to that attempt, under all the conditions above |
| RefusalTheorems.RefusedByProvider | errors.go:95-121 | Only an invalid_grant answer of the same attempt leads into the refusal |
| RefusalTheorems.MarkedBeforeNextAttempt | refresh.go:323-360 | The step that ends an attempt marks its revision exactly if it was abandoned without an answer, and no other attempt can be admitted before |
| RefusalTheorems.MarksAreForever | pkceflow.go:501-514 | Inconclusive marks and session-expired claims of a revision are never forgotten |
| RefusalTheorems.InconclusiveIsNeverRefused | refresh.go:124-139 | Once an attempt of a revision was abandoned inconclusively, that revision is never refused |
| RefusalTheorems.ExpiredOncePerRevision | pkceflow.go:253-269 | The supervisor claims the session-expired event of a revision at most once |
| RefusalTheorems.RefusalIsSaved | refresh.go:160-174 | A Save of the refused generation that returns nil leaves only the ID token in the store |
| RefusalTheorems.RefusalSurvivesRestart | refresh.go:97-108 | A later Client over that store is unusable at every moment, answers every AccessToken call with the empty string and starts no grant until a Login |
| ParkingTheorems.ParkingIsSticky | pkceflow.go:516-571 | A parked revision stays parked in the same way, no attempt of it starts and nobody presents its token, unless a claim of it is released as expired |
| ParkingTheorems.ParkedUntilReleased | pkceflow.go:516-571 | From the moment a revision is parked it stays parked and gets no new attempt, as long as no claim of it is released as expired from then on |
| ParkingTheorems.UnparkingIsExact | pkceflow.go:450-468 | Within a revision, a step un-parks it if and only if it is that release |
| ExpiryTheorems.ParkingIsExact | pkceflow.go:516-571 | A step parks a generation, and as what, if and only if it records for it an integrity failure, or a refusal of the credential or of the client registration |
| ExpiryTheorems.EventTimes | pkceflow.go:487-499 | In every state the event of a refused generation is due no earlier than the end of grace, and no later than that or now; that of an integrity failure is due already |
| ExpiryTheorems.ReportIsExact | pkceflow.go:253-269 | A supervisor reports a refused generation only when grace has ended, and with a current reading of the clock then at once; an integrity failure at once |
| ExpiryTheorems.EventMovesEarlier | pkceflow.go:433-571 | While a generation stays parked in the same way, a step does not move its event to a later time, if and only if it is not the release of a claim that records one |
| LateEvent.EventMovesLater | pkceflow.go:454-458 | A run in which such a release moves the event of a parked generation ten seconds further out |
| IntegrityTheorems.IntegrityBlockIsExact | pkceflow.go:525-539 | Within a revision that is blocked as an integrity failure, a step keeps it blocked so if and only if it is not the un-parking release |
| IntegrityTheorems.UnparkedOnce | pkceflow.go:450-468 | A revision is un-parked at most once |
| IntegrityTheorems.FailureStands | refresh.go:334-337 | From a failed integrity check on, while its revision is current and not un-parked, the generation is blocked and unusable and yields no token, at every moment |
| IntegrityTheorems.FailedIsHistory | refresh.go:323-339 | The revisions recorded as failed are exactly those with an attempt that ended in an integrity failure while they were current |
| IntegrityTheorems.AnswersAreExact | accesstoken.go:32-101 | In every state, a step answers a call with a token if and only if the call finds its own earlier reading fresh, finds its revision replaced, reads the outcome of an attempt that succeeded, or decides on an unblocked generation that is fresh or in grace |
| IntegrityTheorems.FailedAnswersAreExact | accesstoken.go:14-101 | While a failed generation is current, a call is answered with a token if and only if it passes in one of the first three ways, or decides so after the un-parking release; until that release nothing is usable, and new calls and final decisions are answered with the empty string |
| Unparking.FailedTokenIsHandedOut | pkceflow.go:461-462 | A run in which the release un-parks a failed generation, AuthStatus reports it usable, and a new call is answered with its expired token |
| StaleAnswer.ParkedTokenIsHandedOut | refresh.go:209-213 | A run in which a delayed call is answered with the expired token of a generation parked as an integrity failure |
| ParkingTheorems.ReadersAgree | client.go:171-202 | AuthStatus is valid if and only if unblocked tokens have more than thirty seconds to live, in grace if and only if they have not but the window from the last authentication is open, with the whole days left; the token read hands out the token exactly when the session is usable |
| ParkingTheorems.StatusDegrades | client.go:171-202 | Within a generation time only takes away: validity, usability and grace days never come back |
| Unparking.ParkedRevisionIsPresentedAgain | pkceflow.go:461-462 | The hypothesis of ParkingIsSticky is needed: a run that parks a revision and then starts another attempt of it |
| ScheduleTheorems.BackgroundBudget | pkceflow.go:287-324 | Every generation gets at most floor(log2(lifetime)) background attempts, across any starts and stops of supervisors |
| DecisionTheorems.SupervisorDecides | pkceflow.go:228-325 | In every state: a claim of exactly the next stage is given if and only if the stage exists and the later of its threshold and the pause has come before the expiry; the supervisor sleeps until exactly that moment, or the event of a parked generation; it reports that event if and only if it is due, and gives the generation up if and only if no moment is left |
| DecisionTheorems.NextStageIsClaimed | pkceflow.go:433-484 | After a used-up stage n, a decision in that generation claims stage n + 1 if and only if nothing is claimed, parked or given up, and the time is past the threshold and ten seconds after the completion, before the expiry |
| DecisionTheorems.UnusedClaimIsGivenBack | pkceflow.go:459-460 | A claim cancelled before its attempt started leaves stage, pause and disposition as they were |
| DecisionTheorems.WakesInTime | pkceflow.go:349-376 | A supervisor that sleeps on an open channel has a timer no later than the next threshold of a claimable generation, or the event of a parked one |
| ScheduleTheorems.ClaimsAreTimely | pkceflow.go:270-324 | A claim is given only from the midpoint of the lifetime on, before expiry, for an unused stage, ten seconds after the last completion |
| ScheduleTheorems.AttemptsAreSpaced | pkceflow.go:472-484 | Within a generation a claim follows the previous completion by at least ten seconds |
| ScheduleTheorems.StartsBeforeExpiry | refresh.go:237-254 | No background attempt starts at or after the expiry, and each presents the current claim |
| ScheduleTheorems.RetriesAreSpaced | persistence.go:109-127 | After the n-th consecutive failure no Save of that generation is claimed sooner than the capped delay |
| DecisionTheorems.PersistenceDecides | persistence.go:93-128 | A retry is claimed if and only if one is owed for the current revision, none is out and its moment has come; else the supervisor sleeps until exactly that moment, and without a timer only if nothing is owed |
| DecisionTheorems.RetryIsClaimed | persistence.go:65-128 | After the n-th failed Save of a generation that stays current, a decision claims a retry if and only if none is out and 1, 2, 4, 8, 16, 32, then 60 seconds have passed |
| DecisionTheorems.RetryWakesInTime | persistence.go:76-91 | The timer of a sleeping persistence supervisor is no later than the owed retry |
| DecisionTheorems.RetrySettles | persistence.go:130-174 | A claimed retry reaches its Save if and only if its claim stands and the supervisor is alive; after a successful one the store holds memory's state and nothing is owed |
| ScheduleTheorems.FailuresAreCounted | persistence.go:158-172 | The dirty mark counts consecutive failures: one for the first, one more for each retry |
| ScheduleTheorems.RetriesChangeNoState | persistence.go:151-174 | Persistence retries change no state or revision, start no grant and report no event |
| Wakeups.NoLostWakeup | client.go:276-290 | A waiting supervisor has a closed wake channel, or would decide to wait again at any time before its due time |
| Wakeups.EventSignals | pkceflow.go:228-325 | Every section that changes something either supervisor decides from closes the channel in the same section |
| Commits.RunCommits | login.go:228-248 | The commit invariant (durability, tombstone, admission order, event order) holds throughout every run |
| Base.RunInv | client.go:30-46 | Locks, generations, claims and attempts keep their joint invariant throughout every run |
| StageTimes.RefreshStageTime | pkceflow.go:329-347 | The halving loop finds the threshold of a stage, or that there is none |
| StageTimes.StageTimeClosedForm | pkceflow.go:338-346 | The due time of a stage is the expiry minus floor(lifetime / 2^stage) |
| StageTimes.HalvedIsQuotient | pkceflow.go:338-344 | Repeated halving is one division by a power of two, rounded down |
| StageTimes.StageTimesIncrease | pkceflow.go:327-347 | Due times grow strictly with the stage, between the midpoint and the expiry |
| StageTimes.StageExistsIff | pkceflow.go:338-344 | A stage exists exactly up to floor(log2(lifetime)) |
| StageTimes.PersistenceRetryDelay | persistence.go:65-74 | The doubling loop computes min(2^(n-1), 60) seconds in at most six turns |
| StageTimes.RetryDelayIs | persistence.go:9-13 | The delays are 1, 2, 4, 8, 16, 32 and then 60 seconds |
| StageTimes.RetryDelayMonotone | persistence.go:65-74 | The retry delay grows with the number of failures |
| Errors.ClassifyIsExact | errors.go:112-137 | On every error tree the classes decide integrity and permanence exactly as the source's predicates do; refusal and "the provider answered" are decided so on every tree without the blocked-generation sentinel |
| Errors.CodesDecide | errors.go:84-137 | An OAuth error without a sentinel is handled by its code alone: invalid_grant refuses the credential; it, invalid_client and unauthorized_client park the generation; other codes only prove an answer |
| Errors.RefusalIsPermanent | errors.go:106-137 | A credential refusal is permanent and no integrity failure |
| Errors.IntegrityNeverReclassified | errors.go:139-144 | An integrity failure stays one whatever it wraps |
| Errors.WrappingPreservesClass | errors.go:112-137 | Adding context to an error does not change its class |
| Events.EventQueue.EnqueueEvent | events.go:58-68 | Appends in order; exactly the caller that finds nobody draining must drain |
| Events.EventQueue.DrainEvents | events.go:73-89 | Delivers everything in order, including what callbacks add, and ends the duty |
| Dispatch.DispatchInvariant | events.go:58-89 | Under any interleaving, delivered, in-flight and pending events are the enqueue log, and dispatching means exactly one drainer |
| Dispatch.SomeoneDelivers | events.go:58-89 | While anything is undelivered, some thread can take the next delivery step |
| LockOrder.OperationsAreDisciplined | client.go:30-46 | Every operation takes the six mutexes in increasing rank, calls the store without mu, and waits without any of them |
| LockOrder.NoWaitCycle | client.go:30-46 | No reachable state has threads waiting for each other in a cycle |
| LockOrder.NoDeadlock | client.go:30-46 | While any operation is unfinished, some thread can take its next step |
| ProgressTheorems.OnwardIsEnabled | client.go:30-46 | Whoever is under way and awaits no lock, permit, attempt or wake-up can take the next step of its own code |
| ProgressTheorems.NobodyIsStuck | refresh.go:196-307 | In every state, if any thread is under way and not asleep, it or a thread that it waits for can take its next step |
| ProgressTheorems.EnvironmentIsFree | interfaces.go:65-84 | Any answer of a token endpoint, any outcome of a Save, Load or Delete, and the end of a context at any wait is taken, in every state |
| SessionTheorems.StateChangesAreGenerations | client.go:264-271 | The state changes only together with its revision, by one; a new generation starts unscheduled, unmarked and unparked, with every waiter woken |
| SessionTheorems.LogoutFencesAttempts | client.go:255-260 | Logout fences every attempt, also when memory was already empty and the revision stays |
| ClientObject.Client.AuthStatus | client.go:171-202 | Reports validity, grace and remaining days of the current generation |
| ClientObject.Client.UsableAccessToken | accesstoken.go:85-101 | The token that is fresh or covered by grace, else the empty string |
| ClientObject.Client.RestoreSession | client.go:218-251 | Restores only when neither tombstone nor pending retry forbids it, and never on a load error or an empty state |
| ClientObject.Client.AccessToken | accesstoken.go:32-79 | The decision path of AccessToken, with the blocking it does on refresh errors |
| ClientObject.Client.BeginInitOperation | client.go:402-422 | Admission supersedes the Init before it |
| ClientObject.Client.FinishInitOperation | client.go:424-432 | Only the current Init clears the slot |
| ClientObject.Client.CommitInit | client.go:456-474 | A current Init replaces the whole snapshot; any other applies nothing |
| ClientObject.Client.CompleteInitFailure | client.go:441-454 | Only a current Init reports its failure |
| ClientObject.Client.NextRefreshLoopAction | pkceflow.go:228-325 | The supervisor's decision and the state it leaves |
| ClientObject.Client.FinishRefreshLoopAttempt | pkceflow.go:433-470 | Releases a matching claim and records its result; ignores a voided one |
| ClientObject.Client.BlockRefreshIntegrity | pkceflow.go:525-539 | Parks the current revision as an integrity failure, keeping the earliest event time |
| ClientObject.Client.BlockRefreshPermanent | pkceflow.go:551-571 | Parks the current revision as refused, never over an integrity failure |
| ClientObject.Client.BeginRefreshAttempt | refresh.go:196-285 | One pass: turned away, leading a new attempt, following a live one, or waiting for a dying one |
| ClientObject.Client.ReleaseRefreshParticipant | refresh.go:314-321 | The last participant of the current attempt cancels it |
| ClientObject.Client.FinishRefreshAttempt | refresh.go:323-360 | Records the failure and frees the slot in one section |
| ClientObject.Client.CommitRefresh | refresh.go:465-485 | Commits a refreshed generation exactly if its revision is current |
| ClientObject.Client.CommitCredentialRefusal | refresh.go:109-181 | Commits the refused generation if and only if all four conditions of a refusal hold |
| ClientObject.Client.EmitEventIfRevision | events.go:92-108 | Queues the event exactly if the revision is current |
| ClientObject.Client.BeginLifecycleOperation | lifecycle.go:39-58 | Admission takes the next id and supersedes the operation before it |
| ClientObject.Client.FinishLifecycleOperation | lifecycle.go:60-69 | Only the current operation clears the slot |
| ClientObject.Client.CommitLoginState | login.go:224-252 | Commits exactly if the operation is still current after the lock was taken |
| ClientObject.Client.LogoutLocally | logout.go:64-87 | Coalesces, or clears memory, sets the tombstone, deletes and queues the event |
| ClientObject.Client.RecordPersistenceSaveResult | persistence.go:31-52 | A failed Save marks the current revision dirty |
| ClientObject.Client.NextPersistenceRetryAction | persistence.go:93-128 | The persistence supervisor's decision and the state it leaves |
| ClientObject.Client.RetryPersistence | persistence.go:130-174 | A voided claim saves nothing; otherwise the current state is saved and the mark dropped or moved |
| AtomicFile.Directory.StagePrivateFile | filestore/privatefile.go:12-52 | On success a complete private file, on failure nothing but a leftover that could not be removed |
| AtomicFile.Directory.WritePrivateFileAtomic | filestore/privatefile.go:58-77 | At every instant the target is the complete old or the complete new file, unchanged by failures up to and including the move |
| AtomicFile.Directory.ReadFallbackKey | filestore/machineid.go:62-103 | Reads a regular file of exactly the key's size, or nothing |
| AtomicFile.Directory.FallbackKey | filestore/machineid.go:22-60 | Success means the complete key stands at the path; an existing file is never replaced, and the loser of a race reads the winner's key back |
| FallbackKey.Agreement | filestore/machineid.go:22-60 | Any two callers that succeed, at any two moments, return the same 32-byte key, which is the file at the path |
| FallbackKey.KeyNeverChanges | filestore/machineid.go:109-129 | The file at the path never changes once it is there |
| FallbackKey.NeverPartial | filestore/machineid.go:109-129 | The path never shows an incomplete key |
| MobileFlow.Handler.DeliverURL | mobileflow/mobileflow.go:86-104 | Accepts a callback exactly if the active waiter is unserved and matches it |
| MobileFlow.Handler.Register | mobileflow/mobileflow.go:229-237 | Registers only when no flow is active |
| MobileFlow.Handler.Unregister | mobileflow/mobileflow.go:239-245 | Removes its own waiter only |
| MobileProtocol.ReturnsWhatWasAccepted | mobileflow/mobileflow.go:195-226 | A flow that reached its wait returns exactly the callback accepted before its unregister, or an error when there is none |
| MobileProtocol.OnlyTheActiveWaiterIsServed | mobileflow/mobileflow.go:86-104 | At most one callback is accepted per waiter, none after its unregister, none for another flow's |
| MobileProtocol.OneFlowAtATime | mobileflow/mobileflow.go:229-245 | At most one browser flow is registered, from its registration until its waiter is retired, and it is the active one |
| Query.ContainsFixedQuery | mobileflow/mobileflow.go:353-371 | True if and only if, for every expected key, both value lists are equal as multisets |
| Query.EqualQueryValues | mobileflow/mobileflow.go:349-351 | Decides equality of two queries |
| Query.EqualMeansSameKeys | mobileflow/mobileflow.go:349-371 | The one-sided comparison and the number of keys together mean the same keys and values |
| Query.EqualQueriesIsEquivalence | mobileflow/mobileflow.go:349-351 | Query equality is an equivalence relation |
| Query.SameRedirectIsEquivalence | mobileflow/mobileflow.go:308-339 | Naming the same redirect is an equivalence among callback URIs |
| Query.MatchesCallback | mobileflow/mobileflow.go:247-262 | Decides whether a waiter accepts a callback |
| Query.CallbacksAreCorrelated | mobileflow/mobileflow.go:247-262 | An authorization response is accepted only by the flow whose state it returns |
| Query.OwnRedirectIsAccepted | mobileflow/mobileflow.go:317-339 | A flow accepts its own redirect with whatever response parameters are added |
| DesktopFlow.KeysSeparateIff | desktopflow/desktopflow.go:397-402 | A pair's key belongs to no other pair if and only if path and state hold no NUL |
| DesktopFlow.Broker.RegisterWaiter | desktopflow/desktopflow.go:274-292 | Refuses duplicates, stops the grace timer, starts the server if needed |
| DesktopFlow.Broker.DeregisterWaiter | desktopflow/desktopflow.go:296-304 | Removes the waiter and schedules the shutdown when idle |
| DesktopFlow.Broker.TakeWaiter | desktopflow/desktopflow.go:371-380 | A callback's waiter is taken out before anything is sent |
| DesktopFlow.Broker.Shutdown | desktopflow/desktopflow.go:317-327 | Closes the server only when nobody waits |
| Broking.ServerFollowsWaiters | desktopflow/desktopflow.go:274-327 | A waiter means a running server without a recorded timer; an idle running server means a shutdown on its way |
| Broking.StaleTimersAreHarmless | desktopflow/desktopflow.go:314-327 | No timer callback, however late, closes the server while a flow waits |
| Broking.SendsNeverBlock | desktopflow/desktopflow.go:371-395 | Every channel is sent to at most once, so the send outside the lock never blocks |
| Broking.RequestsReachTheirFlow | desktopflow/desktopflow.go:367-402 | A request is given a flow's channel only if it carries that flow's path and state, for NUL-free pairs |
| Broking.WaitersLeaveByKey | desktopflow/desktopflow.go:296-304 | A waiter leaves if and only if a request for its key arrives or a flow with that key ends |
| Broking.FlowKeepsItsChannel | desktopflow/desktopflow.go:193-220 | A registered flow keeps its own channel until it is answered if and only if no other flow with its key (its path and state, when they are NUL-free) ends before that |
| Broking.FateOfAWaiter | desktopflow/desktopflow.go:371-395 | A registered waiter is still its flow's own, or was answered, or was lost to another flow with its key; never two of these |
| Broking.SameKeyLosesWaiter | desktopflow/desktopflow.go:193-220 | A flow that reuses path and state can lose its waiter to the earlier flow |

## Left out

- ParkingTheorems.ParkingIsSticky: assumes that no claim of the revision was released as expired
  before start; without that the disposition may change and an older outcome may still be on its way.
  ParkedUntilReleased needs the assumption only from the moment of parking on, and UnparkingIsExact
  needs none.
- Broking.RequestsReachTheirFlow: needs a NUL-free registered pair, because keys do not separate
  otherwise.
- ClientObject.Client.AccessToken: sequential, with the outcome of the refresh and the generation it
  installs as parameters; its interleavings are steps of `Protocol`.
- AtomicFile.Directory.FallbackKey: one rival at one point; all interleavings of any number of callers
  are in `FallbackKey`.
- Errors.ClassifyIsExact: a tree that holds the blocked-generation sentinel beside an OAuth error is
  classed as blocked; token endpoint calls yield no such tree.
- The verifier and DecodeIDToken read the subject of an ID token by one fixed function of its text.
- One Client per store: other processes that write the same store appear only as failing writes that
  leave any content.
- A section under `mu`, `refreshMu`, `initMu` or `eventMu` is one step of `Protocol`: these locks are
  never held across a call that can block, which `LockOrder` states for the operations it lists.
- The final `finishInitOperation` of a successful or failed Init is one step with its commit.
- Counters (revisions, claims, stages, operation ids) are unbounded, so their wrap-around branches
  are absent. Times are whole nanoseconds with 0 as the zero time; monotonic readings, time zones and
  saturation are not modelled. The remaining grace days use whole-number division.
- A wake channel is a number in the close-and-replace sequence; a channel that is created but never
  closed is the current one.
- A failing Save or Delete leaves any content in the store, which covers "published" and "not
  published" and more.
- Callbacks of the emitter that call into the Client are, in the queue object, a finite list of
  events that each call adds; `Dispatch` allows any.
- `StopRefreshLoop` and loop replacement: any number of supervisors may run and each may stop at any
  point where the source looks at its context.
- `refresh`, which takes no revision, is used by the source's own tests only.
- HTTP, discovery, JWKS and JWT checks, PKCE, randomness, AES-GCM and URL or JSON parsing: their
  outcomes are free choices of the environment or parsed values.
- The network legs of RP-initiated logout and token revocation.
- Case folding of schemes and hosts covers ASCII letters only.
- File permissions, symbolic links to directories, and what a crash leaves on the disk after a
  successful sync; a crashed caller of the fallback key is one that takes no further step.
- Browser opening, HTML pages, listeners, the event bus, the bearer transport, options and the
  command-line example.
