# Verified protocols of the identity service

A Dafny model of the crash-tolerant protocols of a credentials service that keeps its
state in PostgreSQL and Valkey, with proofs about every run of them.

Each repository class, the session aggregate, the hot store and the circuit breaker is a
class here whose methods update its fields and are proved against functions on values.
The protocols around them are state machines over those same functions: one database
transaction, one Lua script or one section under a lock is one step, and between two
steps any other request or worker may act, a process may die, a lease may expire, or a
commit that reported a storage error may turn out to have happened. The main results are
about all states, or all pairs of states, that such runs reach.

| files | what they model |
|---|---|
| `RefreshRuns`, `RefreshSafety`, `RefreshTheorems`, `RefreshOutcomes`, `RefreshWitnesses` | refresh-token rotation with reuse detection, inside the idempotency coordinator, the hot store and the durable fence, beside login, logout and cleanup |
| `AuthSession`, `Idempotency` | the session aggregate and its repository; the record table, `execute_once` and the Lua scripts |
| `Registration`, `RegistrationRuns`, `RegistrationSafety`, `RegistrationOutcomes` | durable registration: leased operations, the profile call between transactions, finalization |
| `Outbox`, `OutboxRuns`, `OutboxRelay`, `OrderedBatch` | the transactional outbox: claims, late publication, retry, quarantine, redrive, cleanup |
| `CircuitBreaker`, `CircuitBreakerRuns` | the breaker with overlapping calls, generations and probes |
| `Fingerprint`, `TextOrder` | the canonical text of a request |
| `Backoff` | the two retry policies |

Beside the invariants and the theorems about runs, every operation has a theorem that
says what it does in terms of the rows and entries a reader sees, both when it acts and
when it does not (`RefreshOutcomes`, `RegistrationOutcomes`, `OutboxRuns.SettlesExactly`,
`CircuitBreakerRuns.AdmissionExactly` and the like).

History that the service does not store (effects ever committed, records ever removed,
answers ever given, messages ever sent, claims ever made) is kept in ordinary fields of
the machines' states, so that a theorem about the last state of a run speaks of the whole
run.

What the machines take for granted:

- Owner tokens and claim tokens are new each time they are made. A probe token differs
  from the tokens of the calls in flight.
- In the refresh and registration machines every step brings a clock value of its own and
  nothing relates two of them. In the outbox machine the clock does not go back and the
  messages of a key are inserted in (creation time, id) order. In the breaker the clock is
  monotonic.
- A hot entry may be lost or replaced at any time by anything, except by a well-formed
  result that was never committed for its identity.
- Users are created only by finalization or exist before the first registration, and the
  user id reserved by a new registration is not yet a user's.

Where the code does not do what one would expect, the model keeps the code:

- An expired record that cleanup has not removed still blocks the insert, so the
  `RuntimeError` about a unique conflict without a winner is reachable
  (`ExpiredRecordBlocksWithoutWinner`). It is also raised when cleanup removes the winner's
  record before the loser looks again (`SweptWinnerIsNotFound`). `NoWinnerExactly` gives the exact condition
  along every run after the collision, and `AloneOutcomes` what is left of it when nothing
  else acts.
- The hot store can answer CONFLICT although nothing is ever committed for the key
  (`ConflictWithoutAnyCommit`). A CONFLICT of the fence is always backed by a commit with
  another request hash (`FenceConflictsAreBacked`, `LookupConflictsExactly`); one of the hot
  store is unbacked only for a lease in progress or a damaged entry
  (`HotConflictsExactly`).
- A hot completed entry can outlive its record, and then two outcomes of one key differ
  (`HotEntryOutlivesItsRecord`); until a second effect is committed for the key, which takes
  the removal of a record, they cannot (`AnswersAgree`). `HotReplaysExactly` says which
  entry is replayed and what a stale replay implies.
- A used token does not revoke its family when the clock reads a time before the session
  was created, because the aggregate rejects that revocation time
  (`UsedTokenRevokesFamily` states the equivalence, `EarlyClockLeavesFamilyActive` is such
  a run).
- Cleanup that passes over a locked row can remove a delivered message and leave an
  earlier quarantined one behind, which redrive then reopens
  (`SkippedRowReopensAnEarlierMessage`), and a late worker can then overtake it
  (`LateSendOvertakesTheReopened`). The outbox theorems hold with such cleanups and their
  one exception is a message that a cleanup left behind a later one it removed; redrive
  reopens a message behind a later one exactly then (`RedriveReopensOnlyTheLast`). A run
  whose cleanups meet no locked row has no such message (`UnlockedRunReopensOnlyTheLast`).
- A set and an ordered list of the same items share a fingerprint (`SetAndListCollide`),
  and so do a decimal, UUID or date and the string that spells it
  (`FormatAndStringCollide`); between requests of one schema, which fixes for each place
  whether it holds sets or lists and which format or plain strings, the text decides the
  meaning (`TextDecidesMeaning`). An enum member means its value and a model its dump.

## Model

| member | source | states |
|---|---|---|
| `RefreshTheorems.AnswersAreCommitted` | `src/app/application/idempotency/coordinator.py:63-168` | in every reachable state, whatever the hot store lost, kept, damaged or refused, an EXECUTED or REPLAY answer carries a result that was committed earlier for that identity and for the same request hash |
| `RefreshTheorems.AnswersAgree` | `src/app/infrastructure/cache/valkey_idempotency_store.py:30-113` | as long as at most one effect was committed for an identity, all EXECUTED and REPLAY answers of it, from the cache or from the fence, carry one and the same result; and while no record of it was removed, that is the result of the stored record |
| `RefreshTheorems.EffectsMatchRecords` | `src/app/application/idempotency/durable.py:49-80` | conservation: effects ever committed for an identity equal its records ever removed plus one if a record is present, with expired records, ambiguous commits and failing callbacks |
| `RefreshTheorems.RecordFencesItsKey` | `src/app/application/idempotency/durable.py:56-65` | from any state with a record for a key, along any further run, nothing more is committed for that key, rotation or revocation, until cleanup removes the record, and the record stays |
| `RefreshTheorems.TokenRotatesOnce` | `src/app/application/use_cases/refresh/handler.py:88-122` | no two committed rotations, under one key or under different keys, spend the same token |
| `RefreshTheorems.ExactlyOneUnusedToken` | `src/app/domain/aggregates/auth_session.py:96-113` | over all interleavings of login, refresh and logout every session has exactly one unused token |
| `RefreshTheorems.UsedTokenRevokesFamily` | `src/app/domain/aggregates/auth_session.py:83-94` | a used token under a key with no record commits a refusal that leaves the family revoked, if and only if the session is revoked already or the clock is not before its creation; an earlier revocation time is kept |
| `RefreshTheorems.RevokedForever` | `src/app/domain/aggregates/auth_session.py:115-120` | once a session is revoked, in every later state the row is unchanged, no freshness check of any of its tokens passes on any clock, and since then no rotation of it was committed and no pair of it handed out |
| `RefreshTheorems.UsedForever` | `src/app/domain/entities/refresh_token.py:30-33` | a used token is used, with the same time of use, in every later state of every run |
| `RefreshTheorems.DeliversOnlyTheLiveToken` | `src/app/application/use_cases/refresh/handler.py:179-184` | a pair, executed or replayed, is handed out only if it belongs to the one unused token of a session that is active at that moment |
| `RefreshOutcomes.FenceConflictsAreBacked` | `src/app/application/idempotency/durable.py:103-112` | in every reachable state, every CONFLICT the durable fence ever answered is backed by a commit of that identity with another request hash |
| `RefreshOutcomes.LookupConflictsExactly` | `src/app/application/idempotency/durable.py:82-112` | a lookup gives CONFLICT if and only if it can read and an unexpired record of another hash is stored, and then an effect of that other request was committed |
| `RefreshOutcomes.HotConflictsExactly` | `src/app/infrastructure/cache/valkey_idempotency_store.py:47-69` | the hot store gives CONFLICT if and only if the entry is readable and of another hash; behind a whole completed entry such an effect was committed, so an unbacked CONFLICT comes only from a lease in progress or a damaged entry |
| `RefreshOutcomes.HotReplaysExactly` | `src/app/infrastructure/cache/valkey_idempotency_store.py:47-65` | the hot store replays a result if and only if a whole completed entry of the request's hash holds it; it differs from the stored record's only after two effects were committed for the key and a record of it removed, and without a stored record one was removed |
| `RefreshOutcomes.ScriptsDamageNothing` | `src/app/infrastructure/cache/valkey_idempotency_store.py:30-113` | the four scripts leave an entry a lease in progress or a whole completed result |
| `RefreshOutcomes.CollidesExactly` | `src/app/application/idempotency/durable.py:49-58` | the insert collides if and only if the callback gave a result and a record is stored, expired or not, and then nothing is changed but the request's own progress |
| `RefreshOutcomes.NoWinnerExactly` | `src/app/application/idempotency/durable.py:59-65` | from a collision along any run to the second lookup, no winner is found if and only if the identity then has no record or an expired one, and it has none only if cleanup removed one since; otherwise the answer is the record's classification |
| `RefreshOutcomes.BeginExactly` | `src/app/infrastructure/cache/valkey_idempotency_store.py:30-70` | a request gets the lease if and only if the answer arrives and the key was absent, and the key is then leased to it; it waits if and only if a lease of its own request is in progress; it goes on without the hot store if and only if no answer arrives or the entry is damaged; a present entry is never changed |
| `RefreshOutcomes.ExecuteExactly` | `src/app/application/use_cases/refresh/handler.py:88-122` | rotation, refusal or nothing: with no record and a commit that lands, an unused token of an active session and an enabled account commits one rotation, a used token or a disabled account one refusal with the family revoked, with the whole tables and record stated; anything else changes nothing |
| `RefreshOutcomes.ExecutedExactly` | `src/app/application/idempotency/durable.py:49-80` | a request is told EXECUTED, with the result just written, if and only if a commit was acknowledged; after a collision it looks for the winner, after any error for a result committed all the same |
| `RefreshOutcomes.DisabledAccountRevokesFamily` | `src/app/domain/aggregates/auth_session.py:91-93` | an unused token of an active session for a disabled account commits one refusal and leaves the family revoked at that time; for an inactive session nothing is committed |
| `RefreshOutcomes.HeartbeatExactly` | `src/app/application/idempotency/coordinator.py:184-207` | the lease is lost if and only if the store is not reached or the entry is no longer held; otherwise only its life is prolonged |
| `RefreshOutcomes.EndsByLease` | `src/app/application/idempotency/coordinator.py:134-168` | with a live lease the hot entry is settled or given back before the outcome or the error goes out; without one it goes out at once |
| `RefreshOutcomes.SettleExactly` | `src/app/application/idempotency/coordinator.py:150-168` | the entry still held becomes the whole completed result, or is given back if the outcome carries none; any other entry stays, and the outcome is returned in every case |
| `RefreshOutcomes.AbandonExactly` | `src/app/application/idempotency/coordinator.py:138-145` | a failed request gives back exactly the entry it still holds |
| `RefreshOutcomes.DeliversExactly` | `src/app/application/use_cases/refresh/handler.py:168-194` | a pair is handed out if and only if the outcome carries a rotated result whose token is unused in a session active at that moment |
| `RefreshOutcomes.LogoutExactly` | `src/app/application/use_cases/logout/handler.py:28-39` | a logout that finds its token leaves the session revoked, at an earlier time if it was, and does nothing if and only if the clock is before the session's creation and it is not revoked |
| `RefreshOutcomes.LoginExactly` | `src/app/application/use_cases/login/handler.py:65-73` | a login adds an active session with its one unused token if and only if session, token and digest are new and the idle time is positive |
| `RefreshSafety.RunKeepsInv` | `src/app/application/idempotency/coordinator.py:63-218` | every run of every number of requests keeps the invariant over fence, cache, requests, answers, session tables and committed rotations |
| `RefreshSafety.RefreshKeepsStore` | `src/app/application/use_cases/refresh/handler.py:91-122` | a refresh that does not raise keeps one unused token per session, changes no used token and no revocation time, and describes its effect truly |
| `RefreshWitnesses.ExpiredRecordBlocksWithoutWinner` | `src/app/application/idempotency/durable.py:59-64` | a reachable state in which an expired, undeleted record makes the insert collide, rolls a staged revocation back and leaves the second lookup without a winner |
| `RefreshWitnesses.SweptWinnerIsNotFound` | `src/app/application/idempotency/durable.py:59-64` | a reachable state in which both requests had passed the first lookup, the winner committed and cleanup removed its record, so the loser finds no winner at any clock |
| `RefreshWitnesses.EarlyClockLeavesFamilyActive` | `src/app/domain/aggregates/auth_session.py:39-42` | a reachable state in which a used token under a new key, on a clock before the session's creation, commits nothing and leaves the family unrevoked |
| `RefreshWitnesses.HotEntryOutlivesItsRecord` | `src/app/infrastructure/cache/valkey_idempotency_store.py:85-103` | a reachable state in which a replayed answer and the stored record of one key differ, after the record the cache came from was cleaned up |
| `RefreshWitnesses.ConflictWithoutAnyCommit` | `src/app/application/idempotency/coordinator.py:111-112` | a reachable state with a CONFLICT answer for a key under which nothing was ever committed, after the request that held the lease died |
| `AuthSessions.AcceptedExactlyWhenFresh` | `src/app/domain/aggregates/auth_session.py:83-94` | a refresh is accepted exactly for an unused token of an active session of an account that can authenticate; a used token revokes an unrevoked session exactly when the clock is not before its creation |
| `AuthSessions.RotationSpendsOneAddsOne` | `src/app/domain/aggregates/auth_session.py:96-113` | a rotation that succeeds was given an unused token, marks it used at that time, adds one unused token with the given digest and leaves the session active and valid |
| `AuthSessions.RotatesExactly` | `src/app/domain/aggregates/auth_session.py:96-113` | a rotation succeeds if and only if the idle time is positive, the session active, the token unused and not from the future, and id and digest new; then idle time, spent token and replacement are as given and nothing else changes |
| `AuthSessions.DisabledAccountRevokes` | `src/app/domain/aggregates/auth_session.py:91-93` | refusing a disabled account sets the revocation time and changes nothing else |
| `AuthSessions.RevokesExactly` | `src/app/domain/aggregates/auth_session.py:118-120` | a revocation sets one time once and fails if and only if that time is before the creation of an unrevoked session |
| `AuthSessions.StartsExactly` | `src/app/domain/aggregates/auth_session.py:58-77` | a session starts unrevoked with one unused token and its idle time, if and only if that is positive |
| `AuthSessions.AuthSession.constructor` | `src/app/domain/aggregates/auth_session.py:34-56` | a valid aggregate becomes the fields |
| `AuthSessions.AuthSession.Load` | `src/app/domain/aggregates/auth_session.py:34-56` | an aggregate is accepted exactly when it is valid, and the error is the first the validator raises |
| `AuthSessions.AuthSession.RevokeAt` | `src/app/domain/aggregates/auth_session.py:118-120` | the fields become those of `Revoke`, a set revocation time stays, and an error leaves the aggregate as it was |
| `AuthSessions.AuthSession.AcceptsRefreshAt` | `src/app/domain/aggregates/auth_session.py:83-94` | verdict and fields are those of `AcceptsRefresh`, and an error leaves the aggregate as it was |
| `AuthSessions.AuthSession.RotateAt` | `src/app/domain/aggregates/auth_session.py:96-113` | the fields become those of `Rotate`, the returned token is the replacement, and an error leaves the aggregate as it was |
| `AuthSessions.AuthSession.CanReplayAt` | `src/app/domain/aggregates/auth_session.py:115-116` | the answer is that of `CanReplay`, and nothing changes |
| `AuthSessions.AuthSessionRepository.constructor` | `src/app/infrastructure/database/repositories/auth_session_repository.py:20-23` | both tables start empty |
| `AuthSessions.AuthSessionRepository.Create` | `src/app/infrastructure/database/repositories/auth_session_repository.py:25-29` | session and token rows are written together under their unique keys, or neither is |
| `AuthSessions.AuthSessionRepository.Save` | `src/app/infrastructure/database/repositories/auth_session_repository.py:31-36` | session, presented token and replacement are written together, or an error leaves both tables as they were |
| `AuthSessions.AuthSessionRepository.GetByRefreshHash` | `src/app/infrastructure/database/repositories/auth_session_repository.py:38-50` | the aggregate of a token with the digest is found, or there is no such token or its session is missing |
| `DurableFence.AloneOutcomes` | `src/app/application/idempotency/durable.py:38-95` | undisturbed, the callback's effect is kept exactly when no record is stored, REPLAY comes exactly for an unexpired record of the same hash, and the conflict without a winner exactly for an expired undeleted record |
| `DurableFence.RecordLivesExactly` | `src/app/infrastructure/database/repositories/idempotency_record_repository.py:22-78` | a record inserted at `now` answers lookups, as replay or conflict by its hash, if and only if they come before `now` plus the retention |
| `DurableFence.DurableExecutionService.constructor` | `src/app/application/idempotency/durable.py:30-36` | the service works on the record table it is given |
| `DurableFence.DurableExecutionService.ExecuteOnce` | `src/app/application/idempotency/durable.py:38-80` | undisturbed, table and outcome are those of `ExecuteAlone`, errors included |
| `DurableFence.IdempotencyRecordRepository.constructor` | `src/app/infrastructure/database/repositories/idempotency_record_repository.py:20-20` | the table starts empty |
| `DurableFence.IdempotencyRecordRepository.TryAddCompleted` | `src/app/infrastructure/database/repositories/idempotency_record_repository.py:48-78` | the insert takes place exactly when the unique key is free, expired rows included |
| `DurableFence.IdempotencyRecordRepository.DeleteExpired` | `src/app/infrastructure/database/repositories/idempotency_record_repository.py:80-96` | up to `limit` expired unlocked records go, none that expires later than one left behind, fewer only if no more are expired |
| `HotStore.CompleteThenReplay` | `src/app/infrastructure/cache/valkey_idempotency_store.py:85-103` | round trip: a result completed by the lease's owner is what the next begin of the same request replays |
| `HotStore.LeaseLifecycle` | `src/app/infrastructure/cache/valkey_idempotency_store.py:30-113` | an absent key is leased to the one who asks, keeps others of the request waiting, can be renewed and completed by its owner, and is free again once abandoned |
| `HotStore.OwnerScriptsExactly` | `src/app/infrastructure/cache/valkey_idempotency_store.py:72-113` | renew, complete and abandon act if and only if the entry is a lease in progress of that owner (and, for complete, of that hash), and each changes the stated fields and nothing else |
| `HotStore.StaleOwnerChangesNothing` | `src/app/infrastructure/cache/valkey_idempotency_store.py:72-113` | renew, complete and abandon by anyone but the entry's owner leave it as it is and report failure |
| `HotStore.ValkeyHotIdempotencyStore.constructor` | `src/app/infrastructure/cache/valkey_idempotency_store.py:115-128` | the store starts empty, with a positive result TTL |
| `HotStore.ValkeyHotIdempotencyStore.Create` | `src/app/infrastructure/cache/valkey_idempotency_store.py:122-128` | construction succeeds exactly for a positive result TTL and a namespace, and names the first that is wrong |
| `HotStore.ValkeyHotIdempotencyStore.Begin` | `src/app/infrastructure/cache/valkey_idempotency_store.py:130-182` | argument errors first and without effect; then entry and answer are those of the script, a corrupt or undecodable entry reads as unavailable, and a storage error may come before the script ran or after; other keys are untouched |
| `HotStore.ValkeyHotIdempotencyStore.Renew` | `src/app/infrastructure/cache/valkey_idempotency_store.py:184-202` | entry and answer are those of the script; a storage error may come before it ran or after, and then the entry is unchanged or the script's; other keys are untouched |
| `HotStore.ValkeyHotIdempotencyStore.Complete` | `src/app/infrastructure/cache/valkey_idempotency_store.py:204-223` | entry and answer are those of the script; a storage error may come before it ran or after, and then the entry is unchanged or the script's; other keys are untouched |
| `HotStore.ValkeyHotIdempotencyStore.Abandon` | `src/app/infrastructure/cache/valkey_idempotency_store.py:225-239` | entry and answer are those of the script; a storage error may come before it ran or after, and then the entry is unchanged or the script's; other keys are untouched |
| `RegistrationSafety.CompletionIsAtomic` | `src/app/application/use_cases/resume_registration/handler.py:136-168` | across crashes, takeovers, ambiguous commits and unclassified errors an operation is COMPLETED exactly when a user with its reserved id exists and exactly when one registered event was ever inserted for it, never two |
| `RegistrationSafety.CompletionFollowsConfirmation` | `src/app/application/use_cases/resume_registration/handler.py:84-103` | the step that completes an operation is a finalization and finds its profile confirmed before |
| `RegistrationSafety.StaleHolderChangesNothing` | `src/app/infrastructure/database/repositories/registration_operation_repository.py:124-214` | once another attempt has claimed an operation, complete, retry and block by an earlier holder change nothing for any clock values |
| `RegistrationSafety.ClaimMovesOnce` | `src/app/infrastructure/database/repositories/registration_operation_repository.py:124-214` | over a whole run each claim gives rise to at most one move by its holder |
| `RegistrationSafety.AttemptBudget` | `src/app/application/use_cases/resume_registration/handler.py:170-194` | unfinished operations are below `max_attempts`, finished ones at most there, and the holder's snapshot count equals the row's |
| `RegistrationSafety.KeyNamesOneRegistration` | `src/app/application/use_cases/register/handler.py:54-135` | all replies ever given for one key, pending or completed, name one and the same stored operation and user, so ids of losing candidates are never returned |
| `RegistrationSafety.ConflictsNeverOccur` | `src/app/application/use_cases/register/handler.py:102-108` | no finalization meets an email or user conflict and no reply is "completed registration has no user", because an operation that is not COMPLETED has an email no account has |
| `RegistrationSafety.CompletionIsForever` | `src/app/infrastructure/database/repositories/registration_operation_repository.py:124-242` | along every run no operation disappears, changes its identity or leaves COMPLETED, and no user disappears |
| `RegistrationSafety.RunKeepsInv` | `src/app/application/use_cases/resume_registration/handler.py:76-223` | every run of requests, recovery workers and redrives keeps the invariant over operations, users, events, claims, moves, requests and answers |
| `RegistrationOutcomes.NamedOnlyToItsOwner` | `src/app/application/use_cases/register/handler.py:92-117` | over whole runs, a registration is named, pending or completed, only to a command with its key, its email and the password of its hash, be that still the operation's or already the account's |
| `RegistrationOutcomes.VerifyExactly` | `src/app/application/use_cases/register/handler.py:99-120` | a resumed registration is answered with a key conflict if and only if email or password is not the registered one; otherwise a completed one is named, a blocked one refused and any other goes on to be claimed |
| `RegistrationOutcomes.LoadExactly` | `src/app/application/use_cases/register/handler.py:56-86` | a lookup shows the operation of the key as it is; without one the first lookup goes on to create and the second reports that the user exists |
| `RegistrationOutcomes.CreateExactly` | `src/app/application/use_cases/register/handler.py:60-90` | an operation is stored if and only if its email has no account and its id, user, email and key are free; it is then claimed by its request, with the request's credentials |
| `RegistrationOutcomes.ClaimOneExactly` | `src/app/application/use_cases/register/handler.py:122-135` | a claim by key takes the operation if and only if it is due, changing only its claim, and begins one attempt; otherwise the registration is named as pending |
| `RegistrationOutcomes.ClaimManyExactly` | `src/app/infrastructure/database/repositories/registration_operation_repository.py:104-122` | a batch claim changes exactly the claims of its due operations and begins one attempt for each |
| `RegistrationOutcomes.ProfileExactly` | `src/app/application/use_cases/resume_registration/handler.py:84-103` | a confirmed profile is remembered and goes on to finalization, an unreachable service to a retry, a rejection or any other failure to blocking |
| `RegistrationOutcomes.FinalizeExactly` | `src/app/application/use_cases/resume_registration/handler.py:136-168` | a committed finalization writes, if and only if the claim is live, the completed operation with its hash cleared, the account with that hash, email and creation time, and one event; otherwise nothing |
| `RegistrationOutcomes.FinalizeReplies` | `src/app/application/use_cases/resume_registration/handler.py:102-134` | the reply is completed if and only if finalization took place, pending for a lost claim; a storage error is deferred and any other blocked |
| `RegistrationOutcomes.DeferExactly` | `src/app/application/use_cases/resume_registration/handler.py:170-203` | a retry is scheduled if and only if attempts are left, and written only for a live claim; at the last attempt the operation goes on to be blocked |
| `RegistrationOutcomes.GiveUpExactly` | `src/app/application/use_cases/resume_registration/handler.py:205-223` | blocking is written only for a live claim, and the request is refused |
| `RegistrationOutcomes.RedriveExactly` | `src/app/infrastructure/database/repositories/registration_operation_repository.py:216-242` | a redrive reopens exactly a BLOCKED operation, due at once, with no attempt made and its hash kept |
| `RegistrationOutcomes.ClaimOrder` | `src/app/infrastructure/database/repositories/registration_operation_repository.py:91-122` | a claimed batch is in order of availability, creation and id, and any other due unlocked operation comes after all of a full batch |
| `RegistrationTable.RegistrationOperationRepository.constructor` | `src/app/infrastructure/database/repositories/registration_operation_repository.py:33-34` | the table starts empty and valid |
| `RegistrationTable.RegistrationOperationRepository.TryCreate` | `src/app/infrastructure/database/repositories/registration_operation_repository.py:36-47` | a candidate is stored exactly when id, user id, email and key are all free; otherwise nothing changes |
| `RegistrationTable.RegistrationOperationRepository.GetByKeyHash` | `src/app/infrastructure/database/repositories/registration_operation_repository.py:49-54` | the one operation of the key, or none has it |
| `RegistrationTable.RegistrationOperationRepository.ClaimByKeyHash` | `src/app/infrastructure/database/repositories/registration_operation_repository.py:244-290` | the key's operation is claimed if eligible, otherwise the table is unchanged and nothing of the key was eligible |
| `RegistrationTable.RegistrationOperationRepository.ClaimBatch` | `src/app/infrastructure/database/repositories/registration_operation_repository.py:80-122` | exactly the first `limit` eligible unlocked operations by (available, created, id) are claimed and returned in that order |
| `RegistrationTable.RegistrationOperationRepository.CompleteOperation` | `src/app/infrastructure/database/repositories/registration_operation_repository.py:124-152` | succeeds exactly for the holder of a live claim; unique keys and lifecycle are kept |
| `RegistrationTable.RegistrationOperationRepository.ScheduleRetry` | `src/app/infrastructure/database/repositories/registration_operation_repository.py:154-184` | succeeds exactly for the holder of a live claim; unique keys and lifecycle are kept |
| `RegistrationTable.RegistrationOperationRepository.BlockOperation` | `src/app/infrastructure/database/repositories/registration_operation_repository.py:186-214` | succeeds exactly for the holder of a live claim; unique keys and lifecycle are kept |
| `RegistrationTable.RegistrationOperationRepository.RedriveBlocked` | `src/app/infrastructure/database/repositories/registration_operation_repository.py:216-242` | reopens exactly a BLOCKED operation, with its attempts back at zero |
| `OutboxRuns.SendOvertakesNothing` | `src/app/application/outbox/relay.py:137-147` | in every reachable state, any worker that can send a message, its lease expired or not, does so when every earlier message of the key still stored is finished, except one that a cleanup left behind, and then only if the message sent was cleaned up |
| `OutboxRuns.AcknowledgedBeforeLaterSends` | `src/app/application/outbox/relay.py:216-256` | in the log of any run, an earlier message that ended SUCCESS was acknowledged by the broker before every send of a later message of its key that is still stored, and before every send of any later one unless a cleanup left the earlier message behind |
| `OutboxRuns.RedriveReopensOnlyTheLast` | `src/app/infrastructure/database/repositories/outbox_repository.py:212-298` | over whole runs, the message a redrive reopens has a later one of its key, ever inserted, if and only if some cleanup left it behind a later one it removed; every such later one is gone |
| `OutboxRuns.LeftExactlyWhereOvertaken` | `src/app/infrastructure/database/repositories/outbox_repository.py:262-298` | a stored message has a later one of its key that was inserted and is gone if and only if a cleanup left it behind, and every message left behind was skipped as locked |
| `OutboxRuns.UnlockedRunReopensOnlyTheLast` | `src/app/infrastructure/database/repositories/outbox_repository.py:218-245` | along a run whose cleanups meet no locked row, redrive reopens only a message after which nothing of its key was ever inserted |
| `OutboxRuns.SkippedOnlyWhereLocked` | `src/app/infrastructure/database/repositories/outbox_repository.py:284-286` | a run whose cleanups meet no locked row skips nothing |
| `OutboxRuns.ClaimedIsEarliestUnfinished` | `src/app/infrastructure/database/repositories/outbox_repository.py:56-120` | at most one message of a key is CLAIMED, and it is the earliest unfinished one |
| `OutboxRuns.AttemptBudget` | `src/app/application/outbox/relay.py:231-246` | unfinished messages are below `max_attempts`, finished ones at most there, and the owner's snapshot count equals the row's |
| `OutboxRuns.SettlesExactly` | `src/app/application/outbox/relay.py:216-256` | the owner of a row ends it SUCCESS if and only if it was acknowledged, QUARANTINED if and only if the failure was permanent or the last attempt, and PENDING until the retry time otherwise, with one more attempt; anyone else changes nothing |
| `OutboxRuns.CleanupLeavesBehindExactlyTheSkipped` | `src/app/infrastructure/database/repositories/outbox_repository.py:262-298` | in any reachable table, when cleanup removes a message, an earlier one of its key stays if and only if its row is locked |
| `OutboxRuns.SkippedRowReopensAnEarlierMessage` | `src/app/infrastructure/database/repositories/outbox_repository.py:262-298` | a run in which the repository's batch, passing over one locked row, removes a delivered message and the earlier quarantined one is then PENDING again |
| `OutboxRuns.LateSendOvertakesTheReopened` | `src/app/application/outbox/relay.py:216-223` | a reachable state in which a worker with an expired lease can send a message that is cleaned up, while an earlier one of its key, left behind and redriven, is PENDING |
| `OutboxRuns.SweepIsOldestFirst` | `src/app/infrastructure/database/repositories/outbox_repository.py:271-287` | a batch the repository selects is an initial part of the unlocked sweepable rows, so it is a cleanup step of the run machine |
| `OutboxRuns.RunKeepsInv` | `src/app/application/outbox/relay.py:102-256` | every run of any number of workers keeps the invariant over rows, stream order, finish times, worker snapshots, deliveries and the log |
| `OutboxTable.BatchKeysDistinct` | `src/app/infrastructure/database/repositories/outbox_repository.py:67-99` | every claimed batch has pairwise distinct keys |
| `OutboxTable.ClaimOrder` | `src/app/infrastructure/database/repositories/outbox_repository.py:67-99` | a claimed batch is in (created, id) order, and any other due unlocked message with only finished ones of its key before it comes after all of a full batch |
| `OutboxTable.SweepOrder` | `src/app/infrastructure/database/repositories/outbox_repository.py:271-287` | a cleanup batch holds finished rows before the cutoff, and any other such unlocked row comes after all of a full batch by (terminal, created, id) |
| `OutboxTable.DueExactly` | `src/app/infrastructure/database/repositories/outbox_repository.py:78-87` | a new message is due from its time on, a claimed one from the end of its lease, a retried one from its retry time, and a finished one never |
| `OutboxTable.NewMessage` | `src/app/infrastructure/database/repositories/outbox_repository.py:26-40` | a new message is PENDING with no attempt and no redrive |
| `OutboxTable.ClaimChangesOnlyClaims` | `src/app/infrastructure/database/repositories/outbox_repository.py:101-114` | a claim changes status and claim of exactly the rows of its batch |
| `OutboxTable.RedriveExactly` | `src/app/infrastructure/database/repositories/outbox_repository.py:212-260` | a redrive reopens exactly a QUARANTINED message with no later one of its key stored, due from the given time, with no attempt made |
| `OutboxTable.ClaimRanks` | `src/app/infrastructure/database/repositories/outbox_repository.py:78-99` | the candidates are exactly the unlocked eligible messages with no unfinished predecessor of the key |
| `OutboxTable.OutboxRepository.constructor` | `src/app/infrastructure/database/repositories/outbox_repository.py:21-24` | the table starts empty |
| `OutboxTable.OutboxRepository.Publish` | `src/app/infrastructure/database/repositories/outbox_repository.py:26-40` | a new PENDING row, unless the id is taken |
| `OutboxTable.OutboxRepository.ClaimBatch` | `src/app/infrastructure/database/repositories/outbox_repository.py:42-120` | exactly the first `limit` candidates in (created, id) order are claimed and returned in that order; argument errors change nothing |
| `OutboxTable.OutboxRepository.FinalizePublished` | `src/app/infrastructure/database/repositories/outbox_repository.py:122-149` | succeeds exactly while the worker owns the claim, and then the row is SUCCESS with one more attempt |
| `OutboxTable.OutboxRepository.ScheduleRetry` | `src/app/infrastructure/database/repositories/outbox_repository.py:151-180` | succeeds exactly while the worker owns the claim, and then the row is PENDING with one more attempt |
| `OutboxTable.OutboxRepository.QuarantineMessage` | `src/app/infrastructure/database/repositories/outbox_repository.py:182-210` | succeeds exactly while the worker owns the claim, and then the row is QUARANTINED with one more attempt |
| `OutboxTable.OutboxRepository.RedriveQuarantined` | `src/app/infrastructure/database/repositories/outbox_repository.py:212-260` | reopens exactly a QUARANTINED message with no later one of its key stored |
| `OutboxTable.OutboxRepository.DeleteTerminalBefore` | `src/app/infrastructure/database/repositories/outbox_repository.py:262-298` | exactly the first `limit` unlocked finished rows before the cutoff go, by (terminal, created, id) |
| `OutboxRelay.GroupByKey` | `src/app/application/outbox/relay.py:132-135` | the dictionary has exactly the batch's keys, each with its messages in batch order |
| `OutboxRelay.StreamOfConcat` | `src/app/application/outbox/relay.py:133-135` | a stream lists all messages of its key in batch order |
| `OutboxRelay.StreamsAreSingletons` | `src/app/application/outbox/relay.py:132-147` | every key stream of a claimed batch is a single message |
| `OutboxRelay.OutboxRelayService.Create` | `src/app/application/outbox/relay.py:90-97` | construction succeeds exactly for a positive lease |
| `OutboxRelay.OutboxRelayService.PublishClaimed` | `src/app/application/outbox/relay.py:216-256` | the owner's row ends SUCCESS, PENDING or QUARANTINED by the outcome and the attempts the worker read, with the stated times and error, and nothing else changes; anyone else's call changes nothing |
| `OrderedBatch.SelectOldest` | `src/app/infrastructure/database/repositories/outbox_repository.py:271-287` | the selected ids are the first `limit` candidates in order, all of them if there are fewer |
| `CircuitBreakerRuns.SingleProbe` | `src/app/infrastructure/resilience/circuit_breaker.py:161-234` | in every reachable state at most one probe call is in flight, it holds the slot, the slot is taken exactly while such a call is in flight, and only in HALF_OPEN, so no slot is stuck |
| `CircuitBreakerRuns.StaleEndIgnored` | `src/app/infrastructure/resilience/circuit_breaker.py:91-159` | the end of a call of an older generation changes no field, however it ended |
| `CircuitBreakerRuns.CounterIsStreak` | `src/app/infrastructure/resilience/circuit_breaker.py:113-150` | in CLOSED the counter equals the failures of the current generation since its last success, read off the log, and is below `fail_max` |
| `CircuitBreakerRuns.OpensExactlyAtLimit` | `src/app/infrastructure/resilience/circuit_breaker.py:132-150` | from CLOSED a step opens the breaker if and only if it makes that run of failures reach `fail_max` |
| `CircuitBreakerRuns.ProbeDecides` | `src/app/infrastructure/resilience/circuit_breaker.py:97-159` | from HALF_OPEN only the end of the probe call moves the breaker, to CLOSED exactly if the dependency answered and to OPEN exactly if it failed |
| `CircuitBreakerRuns.AdmissionWaitsForRecovery` | `src/app/infrastructure/resilience/circuit_breaker.py:58-75` | in the log of any run every admission is at least `recovery_timeout` after every trip before it |
| `CircuitBreakerRuns.AdmissionExactly` | `src/app/infrastructure/resilience/circuit_breaker.py:161-185` | from CLOSED every call is admitted, without a probe token; from OPEN if and only if the recovery timeout has passed since the last trip in the log, as the probe and into HALF_OPEN; from HALF_OPEN if and only if no probe is in flight, as the probe |
| `CircuitBreakerRuns.RunKeepsInv` | `src/app/infrastructure/resilience/circuit_breaker.py:161-234` | every run of overlapping calls keeps the invariant over probes, generations, the counter and the times |
| `CircuitBreakers.CircuitBreaker.constructor` | `src/app/infrastructure/resilience/circuit_breaker.py:46-56` | a new breaker is closed, with no failures, no probe and generation 0 |
| `CircuitBreakers.CircuitBreaker.Create` | `src/app/infrastructure/resilience/circuit_breaker.py:42-45` | construction succeeds exactly for a positive limit and timeout, and names the first that is wrong |
| `CircuitBreakers.CircuitBreaker.CheckState` | `src/app/infrastructure/resilience/circuit_breaker.py:58-75` | the fields become those of `Cooled` |
| `CircuitBreakers.CircuitBreaker.Trip` | `src/app/infrastructure/resilience/circuit_breaker.py:77-82` | the fields become those of `Tripped` |
| `CircuitBreakers.CircuitBreaker.Admit` | `src/app/infrastructure/resilience/circuit_breaker.py:167-185` | fields and ticket, or refusal, are those of `Admitted` |
| `CircuitBreakers.CircuitBreaker.HandleSuccess` | `src/app/infrastructure/resilience/circuit_breaker.py:91-118` | the fields become those of `Succeeded` |
| `CircuitBreakers.CircuitBreaker.HandleFailure` | `src/app/infrastructure/resilience/circuit_breaker.py:120-159` | the fields become those of `Failed` |
| `CircuitBreakers.CircuitBreaker.ReleaseProbe` | `src/app/infrastructure/resilience/circuit_breaker.py:225-234` | the fields become those of `Released` |
| `Fingerprint.OrderNeverShows` | `src/app/application/idempotency/fingerprint.py:36-110` | for every nested payload, two payloads that mean the same have the same canonical text, errors included: no iteration order of a mapping or set and no order at a declared path shows, at any depth |
| `Fingerprint.TextDecidesMeaning` | `src/app/application/idempotency/fingerprint.py:25-47` | two requests of one schema have the same canonical text if and only if they mean the same, with lists apart from sets and strings apart from decimals, UUIDs and dates |
| `Fingerprint.ShufflingNeverShows` | `src/app/application/idempotency/fingerprint.py:36-110` | a payload whose mappings, sets and lists at declared paths are permuted at every level has the same canonical text |
| `Fingerprint.ShufflingKeepsMeaning` | `src/app/application/idempotency/fingerprint.py:62-110` | permuting entries of mappings, items of sets and items of lists at declared paths, at every level, keeps the meaning |
| `Fingerprint.WriteUnambiguous` | `src/app/application/idempotency/fingerprint.py:41-46` | the compact writer is injective on canonical trees, and no text of one continues another's |
| `Fingerprint.EscapeRoundTrip` | `src/app/application/idempotency/fingerprint.py:41-46` | round trip: a reader of JSON strings, by section 7 of RFC 8259, reads every string back from what the writer quotes |
| `Fingerprint.CompactForm` | `src/app/application/idempotency/fingerprint.py:41-46` | the text has no blanks, commas between items, a colon after a key, and keys in order whatever order they came in |
| `Fingerprint.SortedByTextForgetsOrder` | `src/app/application/idempotency/fingerprint.py:85-94` | sorting canonical items by their texts gives one list for every order of them |
| `Fingerprint.CanonicalizeIsCanonical` | `src/app/application/idempotency/fingerprint.py:50-74` | canonicalization gives a tree whose objects are sorted by key at every level |
| `Fingerprint.SetAndListCollide` | `src/app/application/idempotency/fingerprint.py:95-110` | a set and an ordered list of the same item have the same text although they mean different things |
| `Fingerprint.FormatAndStringCollide` | `src/app/application/idempotency/fingerprint.py:111-124` | a decimal, UUID or date and the string that spells it have the same text although they mean different things |
| `TextOrder.SortForgetsOrder` | `src/app/application/idempotency/fingerprint.py:73-73` | sorting by a key that picks out the element does not depend on the order of its input |
| `TextOrder.SortPermutes` | `src/app/application/idempotency/fingerprint.py:86-94` | sorting gives a permutation in key order |
| `Backoff.Make` | `src/app/application/policies/outbox_retry.py:18-28` | a policy is accepted exactly when all its fields are in range |
| `Backoff.DelayBounds` | `src/app/application/policies/outbox_retry.py:30-44` | for every valid policy and sample in [-1, 1] the delay is between min(0.1, cap) and the cap, and between the delays of the extreme samples |
| `Backoff.DelayMonotone` | `src/app/application/policies/registration_retry.py:24-31` | for one sample a later attempt never waits less |
| `Backoff.Saturates` | `src/app/application/policies/outbox_retry.py:38-42` | with an exponent above 1 the unjittered delay is the cap from a computable attempt on |
| `Backoff.ReachesCapExactlyWhenGrowing` | `src/app/application/policies/registration_retry.py:25-29` | the unjittered delay ever reaches the cap if and only if the exponent exceeds 1 or the delay starts at the cap |
| `Backoff.FirstDelay` | `src/app/application/policies/outbox_retry.py:38-44` | the first attempt waits the initial delay, jittered and kept between 0.1 and the cap |
| `Backoff.DelayGrowsByExponent` | `src/app/application/policies/registration_retry.py:25-29` | each further attempt multiplies the unjittered delay by the exponent, up to the cap |
| `Backoff.JitterIsProportional` | `src/app/application/policies/outbox_retry.py:43-44` | strictly between the bounds the delay is the unjittered one times one plus ratio times sample |

## Left out

- HTTP routers, schemas, cookies, middleware, health checks and the mapping of exceptions to statuses: easy claims only.
- JWT, AES-GCM, Argon2 and SHA-256: tokens, envelopes and digests are opaque values; a password hash is known by the password it verifies, and distinct identities have distinct storage keys.
- SQLAlchemy sessions, ORM models, migrations and dependency injection: a table is a map with its unique keys, a transaction is one step; isolation levels below that are not modelled.
- The coordinator, `RefreshHandler`, `RegisterUserHandler`, `ResumeRegistrationHandler` and the recovery loop as methods: they suspend between transactions, so they are the step functions of the run machines, on values; update in place and aliasing inside one call are not captured.
- Kafka and the profile service: nondeterministic outcomes of a step.
- Signal handling, the polling loop of `OutboxRelayService.run`, observers, logging and metrics: a stopped or cancelled worker is one that abandons its message.
- Payload, topic, type and version columns: they are copied and never looked at.
- Liveness: that a message or a registration finishes at some time is not stated.
- `hash_idempotency_key`, `get_current_user` and the password check of login: a login step is the transaction that creates the session.
- Lease lengths and result TTLs as durations: a hot entry may be lost at any moment, which covers every TTL.
- Decimals, dates, UUIDs and numbers in the fingerprint: their texts are given; finite and aware values are accepted, all others are the rejected kind.
- DurableFence.AloneOutcomes: does not model other requests between the transactions; RefreshOutcomes does.
- AuthSessions.AuthSession.constructor: takes a valid aggregate; the validator's errors are those of Load.
- HotStore.ValkeyHotIdempotencyStore.constructor: takes a positive TTL; the errors are those of Create.
- DurableFence.DurableExecutionService.ExecuteOnce: does not model other requests between its transactions, because the interleavings are the refresh machine's.
- DurableFence.IdempotencyRecordRepository.DeleteExpired: does not fix which of several records with the same expiry goes first, because row ids are not part of the record.
- Backoff.DelayBounds: arithmetic over the reals; floating-point rounding and overflow of the power are not modelled.
- OutboxRelay.OutboxRelayService.PublishClaimed: takes the instants of the retry and of the settlement, and the class name of a publisher's error, as parameters; the jittered delay between them is the subject of Backoff.
- RefreshTheorems.AnswersAreCommitted: damage to the hot store that forges a well-formed result never committed is excluded.
