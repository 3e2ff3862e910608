# Verification of the mission control backend

This project models five parts of the mission control backend and proves what they
promise: the realtime protocol that keeps dashboards in step with the server, the
hash-chained audit ledger, the approval workflow for operator actions, the execution kill
switch with its policies and rate limits, and the derivation of agent state from runtime
evidence. `dafny verify dfyconfig.toml` checks the whole project.

**Realtime protocol.** `Entities` and `Delta` compute the difference between two
snapshots and define the equivalence a difference is computed up to: the gateway without
heartbeat age and platforms, four fields of the runtime summary, agents by id without
their skills, delegations and attention items by id, and both summaries. `Replay` is the
bounded ring of recent messages, `Manager` the connection manager with its per-client
queues. `Backpressure` records what a queue lost. `Synchronisation` puts one manager,
any number of clients and every interleaving of samples, heartbeats, connects, deliveries
and disconnects into one state machine with an inductive invariant, and `Convergence`
draws the guarantees from it. The client there is the strict one: it takes a snapshot as
it comes and a delta only when it is the very next one. One fact worth knowing: a client
that asks to resume from beyond the sequence it holds is answered by a replay that teaches
it nothing, and nothing warns it (`Convergence.OverclaimStrands`,
`Convergence.GreetingLevelsIff`, and `Convergence.OverclaimRun` for a run that ends that
way). `Stranding.DrainedLevelIff` says over whole runs exactly which clients are left behind.
`Restarts` lets the server start again under fresh instance ids while clients keep what
they hold: no client is ever replayed another instance's messages, and a drained client
shows the present instance.

**The dashboard's client.** `Dashboard` models the client the repository ships, which is
less strict: while it holds no sequence it takes any delta. A snapshot lost to a full queue
therefore lets it patch a cache that it never synchronised
(`DashboardWitnesses.LostSnapshotDrifts`). It agrees with the server throughout exactly
when no delta is delivered to it while it holds no sequence (`Dashboard.NeverDivergesIff`).
A resync notice is then always queued behind that delta (`Dashboard.DriftIsWarned`), but a
connection that ends before the notice arrives can leave the client connected, level and
wrong for good (`DashboardWitnesses.DriftCanLast`).

**Audit ledger.** `Audit` models the canonical string concretely and the digest as an
arbitrary function. Its main result needs no injectivity: two verified ledgers with the
same head hash hold the same history, or else exhibit two different canonical strings
with the same digest. `Audit.BarsAreAmbiguous` shows why the statement is about canonical
strings and not about fields.

**Approval workflow.** `Governance` holds roles, risk and approval policy, `Intents` the
operations on the three tables as values, `IntentService` the service object, `IntentRuns`
the invariant of every history of calls, and `IntentGuarantees` what holds in all of them.
The model follows the code where its names suggest otherwise: a cancelled or
preflight-failed intent can still be approved, a blocked preflight overrides any status,
and an intent that is ready can be put back to pending. Records that other services append
are calls of their own.

A preflight suspends between reading its intent and writing it back, so it is two calls,
and any others can come between. What it writes back is the status and the revision it
remembered. Two promises of the workflow are therefore false over all histories: a
rejected high-risk intent can become ready (`RaceWitnesses.GateCanBreak`), and a rejection
and an approval with the same expected revision can both succeed
(`RaceWitnesses.OneDecisionCanFail`). `PreflightRaces` and `RevisionRaces` say exactly
when they hold, call by call and over whole histories:

- no execution without approval, exactly when no finishing preflight brings a remembered
  release back over an approval row that no longer grants it;
- revisions that count the records, exactly when every finishing preflight finds the
  revision it remembered; at most one decision per expected revision then follows;
- revisions that never fall, exactly when no finishing preflight is more than one revision
  late.

**Kill switch, policies and limits.** `ExecutionLock` and `ExecutionLockRuns` model the
lock row, the execution windows and claimers whose look at a window and whose update are
separate steps; a database error reads as locked. `Dispatch` and `DispatchRuns` add the
dispatcher, which looks at the gate, suspends, and later records its attempt without asking
again. So a dispatch can start under a lock (`DispatchWitnesses.DispatchAfterLock`), and any
number of them under a budget of one (`DispatchWitnesses.BudgetDoesNotBoundDispatches`);
`DispatchRuns.EmergencyStopIff` and `DispatchRuns.AllSlottedIff` say exactly when not.

`ExecutionPolicy` validates a client's JSON payload, including the case in which taking a
length raises. `PolicyRefinement` compares policies, `PolicyLifecycle` installs them. The
service promises that a revoked tool is out of reach; an emptied list of tools falls back
to the default list, so this is false, and `PolicyRefinement.RevokedToolDeniedIff` and
`PolicyLifecycle.RevokedThroughoutIff` give the exact condition, with
`PolicyRefinement.RevokingEveryToolRestoresBoth` as the concrete case. A revocation that
meets a database error is a rollback (`PolicyLifecycle.RevocationsInForce`).

`RateLimit` bounds the successes of any hour. The hourly limit alone is not that
bound: `RateLimit.BoundIsReached` shows the proved bound is attained, and
`RateLimit.ReconciliationIsUnlimited` that reconciled attempts escape it. So the hourly
limit is kept in every history only for a profile that can run nothing
(`RateLimit.HourlyLimitAlwaysKeptIff`), and without reconciled strays only for one whose
attempts cannot run side by side (`RateLimit.HourlyLimitKeptIff`).

**Runtime state.** `Lineage` walks a session's ancestry, `CurrentSession` chooses the
session an agent works in, `AgentState` derives the agent's state by precedence.

Identifiers that the program draws at random, the clock, preflight results and database
errors are parameters of the calls. The digest, the payload and policy fingerprints and
the keyed signature are arbitrary functions. Times are integers.

## Model

| member | source | states |
|---|---|---|
| Entities.DiffEntities | backend/app/realtime/delta.py:73-95 | The keyed comparison loop yields exactly the specified upserts and removals, both sorted by id |
| Entities.IndexById | backend/app/realtime/delta.py:74-75 | Indexing a list by id keeps the last entity of each id and the ids in first-seen order |
| Entities.DiffIsDiff | backend/app/realtime/delta.py:73-95 | The upserts are exactly the new or changed entities in their new form, the removals exactly the vanished ids, each once and in order |
| Entities.DiffUnique | backend/app/realtime/delta.py:91-95 | That description determines the result |
| Entities.DiffApplies | backend/app/realtime/delta.py:73-95 | Applied to any list that means the same as the old one, a difference gives a list that means the same as the new one |
| Entities.DiffEmpty | backend/app/realtime/delta.py:91-91 | There is no difference exactly when the two lists mean the same |
| Entities.DiffMinimal | backend/app/realtime/delta.py:80-89 | Upserts and removals are disjoint, and every difference that leads to the same meaning mentions at least these ids |
| Entities.ByIdOrderFree | backend/app/realtime/delta.py:74-75 | With distinct ids the index does not depend on list order |
| Delta.ComputeDelta | backend/app/realtime/delta.py:51-157 | The delta service computes the specified delta, or none when no change record is filled |
| Delta.ChangedScalars | backend/app/realtime/delta.py:58-103 | The scalar part of the change record holds exactly the changed parts in their new form |
| Delta.ComparisonsMatchCores | backend/app/realtime/delta.py:22-49 | The change tests differ exactly on what the equivalence observes |
| Delta.NoDeltaIffEquivalent | backend/app/realtime/delta.py:149-150 | No delta is sent exactly when the snapshots are equivalent |
| Delta.DeltaApplies | backend/app/realtime/delta.py:152-157 | A delta takes every state equivalent to its base to one equivalent to its target |
| Delta.ApplyRespectsEquivalence | backend/app/realtime/types.py:65-71 | Equivalent client states stay equivalent under any delta |
| Delta.DeltaOrderFree | backend/app/realtime/delta.py:92-95 | The delta does not depend on the order of lists with distinct ids |
| Delta.DeltaMinimal | backend/app/realtime/delta.py:58-147 | Every delta with the same effect contains this one |
| Replay.ReplayBuffer.Append | backend/app/realtime/replay.py:14-15 | The ring takes the message and drops the oldest one beyond its capacity |
| Replay.ReplayBuffer.GetMessagesSince | backend/app/realtime/replay.py:17-38 | The lookup answers as specified for empty, evicted, current and missing suffixes |
| Replay.PushKeepsRing | backend/app/realtime/replay.py:12-15 | The ring always holds the last min(capacity, sent) messages ever sent |
| Replay.ReplayExact | backend/app/realtime/replay.py:17-38 | Replay is refused exactly when the ring is empty or the next message was evicted, and is otherwise exactly the later messages in order |
| Manager.ConnectionManager.SendToClient | backend/app/realtime/manager.py:129-161 | A full queue loses its oldest message and the new one and gains a resync marker; a closing session is left alone |
| Manager.ConnectionManager.BroadcastToAll | backend/app/realtime/manager.py:163-168 | Every connected client is offered the message, and nothing else changes |
| Manager.ConnectionManager.HandleNewSnapshot | backend/app/realtime/manager.py:170-202 | First snapshot, delta or silence; a suppressed sample leaves the manager as it was, including the snapshot it remembers |
| Manager.ConnectionManager.SendHeartbeat | backend/app/realtime/manager.py:204-211 | A heartbeat carries the current sequence and advances nothing |
| Manager.ConnectionManager.Register | backend/app/realtime/manager.py:70-90 | A client is refused exactly at capacity and otherwise gets an empty queue |
| Manager.ConnectionManager.Greet | backend/app/realtime/router.py:81-115 | A new client is queued a replay, or the current snapshot after a resync notice where the replay was evicted |
| Manager.ConnectionManager.ConnectClient | backend/app/realtime/router.py:67-115 | Registration and greeting together change the manager as specified |
| Manager.ConnectionManager.UnregisterClient | backend/app/realtime/manager.py:92-108 | The client and its queue are gone, all others unchanged |
| Manager.ConnectionManager.DrainOne | backend/app/realtime/manager.py:110-119 | The writer takes the oldest queued message |
| Backpressure.OfferKeepsLinkOk | backend/app/realtime/manager.py:129-161 | Offering a message keeps the queue within its bound, accounts for every message as delivered, queued or lost, and marks every loss |
| Backpressure.LossLeavesMarker | backend/app/realtime/manager.py:137-157 | After a loss a resync marker placed behind it is delivered or still queued |
| Synchronisation.ReplayCatchesUp | backend/app/realtime/router.py:87-92 | Receiving the messages after its sequence brings a client to the last of them, with the matching snapshot |
| Synchronisation.GreetingCatchesUp | backend/app/realtime/router.py:81-115 | Whatever greeting a client gets, draining it leaves the client level or warned |
| Synchronisation.NextKeepsInv | backend/app/realtime/manager.py:129-211 | Every step of the protocol keeps the invariant that ties manager, ring, queues and clients to the transmitted history |
| Convergence.FromStartInv | backend/app/realtime/manager.py:38-57 | Every run from a fresh manager satisfies the invariant |
| Convergence.ClientsNeverDiverge | backend/app/realtime/manager.py:129-202 | In every run a client that shows anything shows, up to equivalence, the snapshot the manager held at that client's sequence |
| Convergence.DrainedClientsAreCurrent | backend/app/realtime/manager.py:129-161 | In every run a drained client that was delivered no marker and did not resume beyond its sequence is level and shows the newest sample |
| Convergence.DrainedTrustingClientsAreCurrent | backend/app/realtime/manager.py:129-202 | The same for a client that was warned and has synchronised since |
| Convergence.LossIsNeverSilent | backend/app/realtime/manager.py:137-157 | In every run queues keep their bound, nothing unoffered is delivered, and a loss leaves a marker queued or delivered |
| Convergence.TransmissionFaithful | backend/app/realtime/manager.py:170-202 | Folding everything transmitted over any list of samples gives the last sample up to equivalence, and every delta is based on the revision sent just before it |
| Convergence.ReplayMatchesSnapshot | backend/app/realtime/router.py:82-115 | Resuming by replay and starting over from a snapshot lead to equivalent views at the same sequence |
| Convergence.OverclaimStrands | backend/app/realtime/replay.py:29-38 | A replay from beyond the client's sequence changes nothing at the client |
| Convergence.OverclaimRun | backend/app/realtime/router.py:82-115 | On every manager a run of one sample and one connection ends with a client that is drained, unwarned and behind |
| Convergence.GreetingLevelsIff | backend/app/realtime/router.py:82-115 | The exact condition under which a greeting levels a client that was not warned |
| Stranding.NextKeepsCourses | backend/app/realtime/router.py:82-115 | Every step keeps each connection without a resync notice on its way to the current sequence, or, where it was stranded, stuck below it |
| Stranding.DrainedLevelIff | backend/app/realtime/router.py:82-115 | Over every run a connected, drained client that was delivered no resync notice is level exactly when its last connection was not a replay from beyond its sequence while it was behind; a level one shows the newest sample |
| Restarts.EventKeepsInv | backend/app/realtime/manager.py:38-57 | Samples, heartbeats, deliveries, disconnects, reconnects and restarts keep the invariant that ties what clients hold, and of which instance, to the running protocol |
| Restarts.FromFirstStart | backend/app/realtime/manager.py:38-57 | Every run of these events from a first start satisfies that invariant |
| Restarts.NoForeignMessages | backend/app/realtime/router.py:81-92 | Through all restarts everything queued for or delivered over a connection carries the present instance id |
| Restarts.DrainedClientsShowThisInstance | backend/app/realtime/router.py:81-115 | Through all restarts a drained client that was not warned shows the newest sample of the present instance at its sequence, whatever it held before |
| Restarts.HeldViewsAreGenuine | backend/app/realtime/router.py:81-115 | Through all restarts what a client holds of the present instance is, up to equivalence, the snapshot held at its sequence |
| Dashboard.RealtimeClient.constructor | frontend/src/features/realtime/realtime-client.ts:27-34 | A new client knows no server and no sequence |
| Dashboard.RealtimeClient.ConnectionParameters | frontend/src/features/realtime/realtime-client.ts:114-120 | A client asks to resume exactly when it holds both an instance and a sequence, and then from those |
| Dashboard.RealtimeClient.HandleMessage | frontend/src/features/realtime/realtime-client.ts:138-210 | One message changes instance, sequence, connection and view as specified; without a sequence a delta patches whatever the cache holds |
| Dashboard.RealtimeClient.Resync | frontend/src/features/realtime/realtime-client.ts:212-222 | A resync forgets the sequence and closes the connection |
| Dashboard.EventKeepsSite | frontend/src/features/realtime/realtime-client.ts:138-222 | Samples, heartbeats, connects, deliveries, disconnects and restarts keep the invariant that every open connection either has a resync notice queued or leads its browser to the current sequence without drifting |
| Dashboard.AgreesIff | frontend/src/features/realtime/realtime-client.ts:168-190 | At every moment of every run a client agrees with the server, whatever its cache held, exactly when it is not adrift in the running server |
| Dashboard.NeverDivergesIff | frontend/src/features/realtime/realtime-client.ts:168-190 | Over every run a client agrees throughout, whatever its cache held, exactly when it was never delivered a delta while it held no sequence |
| Dashboard.DriftIsWarned | backend/app/realtime/manager.py:137-157 | A client drifts only with a resync notice queued behind the delta, and never where queues hold one message |
| Dashboard.OpenDrainedIff | frontend/src/features/realtime/realtime-client.ts:114-120 | Over every run a drained client with an open connection is level with the running server, and shows its newest sample whatever its cache held exactly when it is not adrift |
| DashboardWitnesses.LostSnapshotDrifts | frontend/src/features/realtime/realtime-client.ts:168-190 | On every manager with queues of two or more, one sample, a connection and as many changes as a queue is long make the first delivery a drift |
| DashboardWitnesses.DriftCanLast | frontend/src/features/realtime/realtime-client.ts:114-120 | A run after which the client is connected, drained, level and adrift, and some cache content leaves it without the newest sample |
| Audit.NatTextInjective | backend/app/db/migrations.py:23-24 | Decimal text determines a natural number |
| Audit.IntTextInjective | backend/app/db/migrations.py:23-24 | Decimal text determines an integer, negative ones included |
| Audit.JoinInjective | backend/app/db/migrations.py:23-27 | Joined fields without bars are determined by the joined string |
| Audit.VerifyChain | backend/app/services/audit_verifier.py:6-79 | The verifier accepts exactly the valid ledgers and otherwise reports the first defect and its kind |
| Audit.AppendRecord | backend/app/repositories/sqlite/audit_repo.py:208-280 | A new record continues sequence and hash from the last row, or starts them |
| Audit.GenesisValid | backend/app/db/migrations.py:260-313 | A freshly migrated ledger verifies |
| Audit.AppendValid | backend/app/repositories/sqlite/audit_repo.py:227-279 | Appending keeps a valid ledger valid and never repairs a broken one |
| Audit.PrefixValid | backend/app/services/audit_verifier.py:27-79 | Every non-empty prefix of a valid ledger is valid |
| Audit.CanonicalEnds | backend/app/db/migrations.py:23-27 | Whatever the fields between contain, the canonical string determines the sequence number and the previous hash |
| Audit.HeadCommitment | backend/app/services/audit_verifier.py:24-79 | Two valid ledgers with the same head hash have the same length, canonical strings, sequences and hashes throughout, or exhibit a digest collision |
| Audit.CanonicalDeterminesFields | backend/app/db/migrations.py:22-28 | Without bars in its fields a record is determined by its canonical string, up to absent against empty values |
| Audit.BarsAreAmbiguous | backend/app/db/migrations.py:23-27 | With bars it is not, and an absent reason reads like an empty one |
| Governance.SelfApprovalMatchesPolicy | backend/app/services/authorization_service.py:40-48 | Self-approval is refused exactly where the approval policy disallows it |
| IntentService.ActionIntentService.constructor | backend/app/db/migrations.py:260-313 | A new database has no intents and the genesis ledger |
| IntentService.ActionIntentService.CreateIntent | backend/app/services/action_intent_service.py:62-310 | Creation inserts the intent, its approval row where one is needed and one record, or changes nothing |
| IntentService.ActionIntentService.GetIntent | backend/app/services/action_intent_service.py:312-363 | Reading refuses a broken fingerprint or signature, expires what is past its time and never hands that out as ready |
| IntentService.ActionIntentService.BeginPreflight | backend/app/services/action_intent_service.py:400-415 | Up to where it suspends a preflight reads the intent and remembers it; a dry run is no more than this |
| IntentService.ActionIntentService.FinishPreflight | backend/app/services/action_intent_service.py:417-459 | Where it resumes a preflight writes result, revision and status from what it remembered, over whatever the row has become, with one record |
| IntentService.ActionIntentService.RequestApproval | backend/app/services/action_intent_service.py:461-509 | The request reopens the approval row and the intent with one record |
| IntentService.ActionIntentService.ApproveIntent | backend/app/services/action_intent_service.py:511-642 | Approval passes the checks in order, then decides and releases with two records |
| IntentService.ActionIntentService.RejectIntent | backend/app/services/action_intent_service.py:644-711 | Rejection decides with one record |
| IntentService.ActionIntentService.CancelIntent | backend/app/services/action_intent_service.py:713-777 | Cancellation decides with one record |
| IntentRuns.FreshInv | backend/app/db/migrations.py:260-313 | The invariant holds on a fresh database |
| IntentRuns.StepKeepsInv | backend/app/services/action_intent_service.py:62-846 | Every call, either half of a preflight and every record of another service keeps the invariant that ties intents, seals, approval rows, deciders and suspended preflights to the ledger |
| IntentGuarantees.AfterInv | backend/app/services/action_intent_service.py:62-846 | Every history from a fresh database satisfies the invariant, however preflights overlap with other calls |
| IntentGuarantees.GrantedMeansApproved | backend/app/services/action_intent_service.py:511-642 | In every history an approval row that stands granted was granted by someone with authority who is not the requester of a high-risk action, and the ledger holds that approval, the release right behind it and of this service only preflights since |
| IntentGuarantees.ReadyIsNeverStale | backend/app/services/action_intent_service.py:352-361 | In every history an intent handed out as ready is within its time |
| IntentGuarantees.NeverTampered | backend/app/services/action_intent_service.py:323-350 | In no history does a call find a payload or a signature that does not match: no operation breaks a seal |
| IntentGuarantees.StepAccounts | backend/app/services/action_intent_service.py:262-281 | Every call adds exactly its number of records, leaves every revision as stated, and a failed one changes nothing but an expiry |
| IntentGuarantees.StepRecords | backend/app/services/action_intent_service.py:779-846 | The ledger grows by exactly the records of the call, in order |
| IntentGuarantees.LedgerAlwaysVerifies | backend/app/services/action_intent_service.py:779-846 | In every history the ledger verifies, extends the genesis record and holds exactly the records of its calls, those of other services included |
| IntentGuarantees.RevisionsCountRecords | backend/app/services/action_intent_service.py:417-437 | In every history an approval row's revision is one more than the recorded decisions, and an intent's at most one more than its recorded preflights and decisions |
| IntentGuarantees.ApprovalSucceedsIff | backend/app/services/action_intent_service.py:520-569 | In every reachable state an approval succeeds exactly when the intent exists and no obstacle stands; the seal and the audit check never refuse it, cancellation and a failed preflight are no obstacles |
| PreflightRaces.StepKeepsGateIff | backend/app/services/action_intent_service.py:417-437 | Of all calls only a finishing preflight can leave an unapproved intent ready, and does so exactly when it is not blocked, remembers a ready intent that needs approval, and the row no longer grants it |
| PreflightRaces.GateHoldsThroughoutIff | backend/app/services/action_intent_service.py:406-437 | Over any history no intent is ready without standing approval exactly when every finished preflight of it met that guard |
| PreflightRaces.ReadyMeansApproved | backend/app/services/action_intent_service.py:511-642 | In those histories a ready intent that needs approval has an approved row, a decider with authority who is not the requester of a high-risk action, and the approval and release records back to back |
| PreflightRaces.ReadyReadsAreApproved | backend/app/services/action_intent_service.py:352-361 | In those histories what is read as ready is within its time and properly approved |
| PreflightRaces.StepKeepsCleanGateIff | backend/app/services/action_intent_service.py:417-437 | The same step by step for the stronger gate that no blocked preflight came after the release |
| PreflightRaces.CleanGateHoldsThroughoutIff | backend/app/services/action_intent_service.py:406-437 | Over any history the stronger gate holds exactly when every finished preflight met the stronger guard |
| PreflightRaces.ReadyMeansCleanlyApproved | backend/app/services/action_intent_service.py:423-430 | In those histories only unblocked preflights of the intent lie between its release and now |
| RevisionRaces.StepKeepsCountIff | backend/app/services/action_intent_service.py:417-437 | A revision stays one more than the recorded preflights and decisions exactly when a finishing preflight finds the revision it remembered |
| RevisionRaces.RevisionCountsThroughoutIff | backend/app/services/action_intent_service.py:417-437 | Over any history the same, at every moment |
| RevisionRaces.RevisionsNeverFallIff | backend/app/services/action_intent_service.py:419-437 | Over any history the revision never falls exactly when no finishing preflight is more than one revision late |
| RevisionRaces.RevisionsGrow | backend/app/services/action_intent_service.py:419-598 | Between any two moments without such a preflight the revision does not fall |
| RevisionRaces.MovedOnThroughoutIff | backend/app/services/action_intent_service.py:419-598 | Over any history the intent has moved on from every revision it was decided at exactly when every finished preflight began no earlier than the last decision |
| RevisionRaces.OneDecisionPerRevision | backend/app/services/action_intent_service.py:528-533 | In those histories, of all approvals and rejections that carry the same expected revision at most one succeeds |
| RevisionRaces.CountingMeansOneDecision | backend/app/services/action_intent_service.py:528-533 | The same wherever revisions count the records |
| RevisionRaces.UndisturbedPreflightIsSafe | backend/app/services/action_intent_service.py:417-437 | A preflight that finishes on the status and revision it read keeps all of these |
| RaceWitnesses.OverlapBreaksGate | backend/app/services/action_intent_service.py:406-437 | From every released intent within its time, a preflight with a request and a rejection inside it ends ready and refused |
| RaceWitnesses.GateCanBreak | backend/app/services/action_intent_service.py:406-437 | A history of six calls from a fresh database ends with a rejected high-risk intent ready for execution |
| RaceWitnesses.OneDecisionCanFail | backend/app/services/action_intent_service.py:406-437 | A history of seven calls lets a rejection and an approval with the same expected revision both succeed |
| ExecutionLock.LatestExists | backend/app/repositories/sqlite/execution_repo.py:483-497 | A table with windows has a latest one |
| ExecutionLock.ExecutionLockService.constructor | backend/app/db/migrations.py:435-448 | The seeded system is locked and has no window |
| ExecutionLock.ExecutionLockService.LatestWindow | backend/app/repositories/sqlite/execution_repo.py:483-513 | The window returned is one no other was opened after |
| ExecutionLock.ExecutionLockService.GetEffectiveStatus | backend/app/services/execution_lock_service.py:42-87 | The status and its reason are as specified, a database error reads as locked, and an expired window is marked |
| ExecutionLock.ExecutionLockService.UnlockExecution | backend/app/services/execution_lock_service.py:178-312 | Unlocking passes the checks in order, then replaces any open window by a bounded one with one record, or rolls back |
| ExecutionLock.ExecutionLockService.LockExecution | backend/app/services/execution_lock_service.py:314-389 | Locking closes every open window with one record |
| ExecutionLock.ExecutionLockService.ClaimExecutionSlot | backend/app/services/execution_lock_service.py:391-424 | A claim takes one slot of the latest window or says why not |
| ExecutionLockRuns.StepKeepsInv | backend/app/services/execution_lock_service.py:42-424 | Every step of operators, readers and claimers keeps the invariant on windows, tickets and ledger |
| ExecutionLockRuns.AfterInv | backend/app/services/execution_lock_service.py:42-424 | Every run from the seeded locked state satisfies the invariant |
| ExecutionLockRuns.ConsumedCountsClaims | backend/app/repositories/sqlite/execution_repo.py:515-531 | The consumed count is the number of slots the run handed out |
| ExecutionLockRuns.BudgetNeverExceeded | backend/app/services/execution_lock_service.py:233-250 | In every interleaving a window hands out at most its budget of at most ten, and is exhausted exactly when it handed out all |
| ExecutionLockRuns.AtMostOneOpen | backend/app/services/execution_lock_service.py:257-265 | In every interleaving only the newest window is ever open, and only while unlocked |
| ExecutionLockRuns.ClaimGrantedIff | backend/app/repositories/sqlite/execution_repo.py:515-531 | A claimer that saw a window earlier is granted exactly when that window is still open; it then is the newest one and was within its lifetime when seen |
| ExecutionLockRuns.AtomicClaimIff | backend/app/services/execution_lock_service.py:391-424 | A claim in one go is granted exactly within an open window's lifetime |
| ExecutionLockRuns.NoSlotAfterLock | backend/app/services/execution_lock_service.py:335-345 | From a lock to the next successful unlock no slot is taken and the status reads locked, database errors or not |
| ExecutionLockRuns.GateOpenIff | backend/app/services/execution_lock_service.py:42-87 | The gate reads unlocked exactly with the environment flag, no database error, and an open, unexpired window, which then is the newest and has budget left |
| ExecutionLockRuns.NeverUnlockedWithoutWindow | backend/app/services/execution_lock_service.py:83-83 | The unlocked result without a window is unreachable |
| ExecutionLockRuns.StatusAgreesWithClaim | backend/app/services/execution_lock_service.py:402-424 | With the environment flag on, the status and a claim at the same moment agree |
| ExecutionLockRuns.RelocksByItself | backend/app/services/execution_lock_service.py:228-231 | Thirty minutes after the last successful unlock the status reads locked, whatever happened in between |
| ExecutionLockRuns.UnlockSucceedsIff | backend/app/services/execution_lock_service.py:194-265 | In every reachable state an unlock succeeds exactly with authority, phrase, reason and a fresh window id |
| Dispatch.ActiveExists | backend/app/repositories/sqlite/execution_repo.py:451-467 | A table with an open window has one that was opened last |
| Dispatch.TaskDispatchCoordinator.constructor | backend/app/db/migrations.py:435-448 | A new database is locked and has no window and no attempt |
| Dispatch.TaskDispatchCoordinator.ActiveWindow | backend/app/repositories/sqlite/execution_repo.py:451-481 | The window found is an open one that no open window was opened after |
| Dispatch.TaskDispatchCoordinator.PrepareSubmission | backend/app/services/task_dispatch_coordinator.py:211-251 | The preparation takes a slot if a window is open, and records attempt and audit entry; a slot that cannot be claimed rolls everything back |
| DispatchRuns.ActKeepsInv | backend/app/services/task_dispatch_coordinator.py:211-251 | Looks and submissions of dispatchers keep the invariant on windows, tickets and ledger |
| DispatchRuns.SubmissionMeets | backend/app/services/task_dispatch_coordinator.py:214-220 | In every reachable state a dispatcher that has looked is refused exactly when a window is open past its time, and goes on without a slot exactly when none is open |
| DispatchRuns.LockNeverStopsALooker | backend/app/services/task_dispatch_coordinator.py:214-220 | A dispatcher that has looked always goes on under a lock, without a slot |
| DispatchRuns.LookedLockIff | backend/app/services/final_preflight_service.py:125-127 | For a dispatcher that has looked the row says locked exactly when an operator locked after its look and nobody has unlocked since |
| DispatchRuns.EmergencyStopIff | backend/app/services/task_dispatch_coordinator.py:136-251 | Over every history no dispatch starts while the row says locked exactly when no dispatcher goes on after a lock that fell between its look and its submission |
| DispatchRuns.SlottedWithinBudget | backend/app/services/task_dispatch_coordinator.py:216-220 | In every interleaving the attempts that took a slot of a window are within its budget of at most ten |
| DispatchRuns.AllSlottedIff | backend/app/services/task_dispatch_coordinator.py:216-220 | Over every history every attempt took a slot exactly when a window was open whenever a dispatcher went on |
| DispatchWitnesses.DispatchAfterLock | backend/app/services/task_dispatch_coordinator.py:214-251 | A history of four steps in which a dispatch starts, without a slot, after an operator locked |
| DispatchWitnesses.BudgetDoesNotBoundDispatches | backend/app/services/task_dispatch_coordinator.py:214-220 | For every number a history in which that many dispatches start although the one window ever opened has a budget of one |
| ExecutionPolicy.CountTools | backend/app/services/execution_policy_service.py:220-223 | The number of requested tools, or none where taking it raises |
| ExecutionPolicy.ValidateReadOnly | backend/app/services/execution_policy_service.py:179-234 | The read-only checks find the specified reasons in order |
| ExecutionPolicy.ValidateIntent | backend/app/services/execution_policy_service.py:77-248 | The validation finds the specified reasons in order, and none exactly when the intent is permitted |
| ExecutionPolicy.PermittedIff | backend/app/services/execution_policy_service.py:93-248 | No reason is found exactly when every demand of the policy is met; the list of denied modes adds nothing |
| PolicyRefinement.TighterAdmitsLess | backend/app/services/execution_policy_service.py:77-248 | Whatever a pointwise tighter policy admits the other admits too |
| PolicyRefinement.CanonicalPoliciesGrow | backend/app/domain/execution_policy.py:134-379 | Each canonical policy admits everything its predecessor does |
| PolicyRefinement.V1AdmitsOnlyDrafting | backend/app/domain/execution_policy.py:234-260 | The first canonical policy admits exactly tool-free reasoning and drafting in one profile |
| PolicyRefinement.RevokeAllTools | backend/app/services/execution_policy_service.py:424-430 | Any series of revocations changes the tool list only, and removes exactly the revoked tools |
| PolicyRefinement.RevokedToolDeniedIff | backend/app/services/execution_policy_service.py:210-218 | After any series of revocations a revoked tool is out of reach exactly when a tool is left, or it is no default tool, or no inspection is offered |
| PolicyRefinement.RevocationShrinksIff | backend/app/services/execution_policy_service.py:410-437 | Revocations only shrink admission exactly when a tool is left, or the default tools were allowed before, or no inspection is offered |
| PolicyRefinement.RevokingEveryToolRestoresBoth | backend/app/services/execution_policy_service.py:214-214 | Revoking both tools of the newest canonical policy admits both again |
| PolicyRefinement.ToolNamesIgnored | backend/app/services/execution_policy_service.py:220-226 | Only the number of listed tools counts, never their names |
| PolicyLifecycle.ExecutionPolicyService.GetActivePolicy | backend/app/services/execution_policy_service.py:32-75 | The policy returned belongs to a newest active row that reads and still has its hash, or is the first canonical one where no row is active or the database raises; a row that does not read, or has another hash, is an error |
| PolicyLifecycle.ExecutionPolicyService.ApplyPolicy | backend/app/services/execution_policy_service.py:320-386 | Applying supersedes every row, appends an active one with its hash, and leaves one record |
| PolicyLifecycle.ExecutionPolicyService.RollbackToV1 | backend/app/services/execution_policy_service.py:388-408 | Rolling back applies the first canonical policy |
| PolicyLifecycle.ExecutionPolicyService.RevokeToolCapability | backend/app/services/execution_policy_service.py:410-437 | Revoking applies the policy read before without the tool; a policy that cannot be had stops it with nothing changed |
| PolicyLifecycle.ActivePolicyIsUnique | backend/app/services/execution_policy_service.py:41-67 | In every history the policy found is the one applied last, whatever the clock said, and never corrupt |
| PolicyLifecycle.PolicyLedgerVerifies | backend/app/services/execution_policy_service.py:360-380 | In every history the ledger verifies and has one record for every change |
| PolicyLifecycle.RevocationsInForce | backend/app/services/execution_policy_service.py:410-437 | After any history a series of revocations leaves in force the policy before it without those tools, or, where one of them met a database error, the first canonical policy |
| PolicyLifecycle.RevokedStaysUnlisted | backend/app/services/execution_policy_service.py:410-437 | A revoked tool stays off the list through every change until a policy that lists it is applied |
| PolicyLifecycle.RevokedThroughoutIff | backend/app/services/execution_policy_service.py:410-437 | Over every history in which a tool was revoked and no policy listing it applied since, it is out of reach exactly when a tool is listed, or it is no default tool, or no inspection is offered |
| RateLimit.CheckLimits | backend/app/services/execution_policy_service.py:250-318 | No reason is found exactly when the profile is known and all three limits leave room, and each reason exactly when its limit is reached |
| RateLimit.AdmittedOk | backend/app/services/execution_policy_service.py:268-316 | At admission the earlier tracked attempts of the hour are within the limits |
| RateLimit.RunKeepsInv | backend/app/services/execution_policy_service.py:250-318 | Every history keeps that bound for every attempt |
| RateLimit.SlidingWindowBound | backend/app/services/execution_policy_service.py:301-316 | In every history the successes of any hour are at most the hourly limit plus concurrency minus one, plus those brought back after they had stopped counting |
| RateLimit.BoundIsReached | backend/app/services/execution_policy_service.py:301-316 | Some history reaches that bound |
| RateLimit.HourlyLimitKeptIff | backend/app/services/execution_policy_service.py:301-316 | The hourly limit itself is kept in every history without strays exactly when attempts cannot run side by side |
| RateLimit.ReconciliationIsUnlimited | backend/app/services/reconciliation_service.py:76-126 | Any number of lost attempts can be admitted and reconciled within one hour |
| RateLimit.HourlyLimitAlwaysKeptIff | backend/app/services/execution_policy_service.py:301-316 | It is kept in every history whatsoever exactly when the profile can run nothing |
| Lineage.ExtractLineage | backend/app/domain/runtime_state.py:205-235 | The walk returns a duplicate-free stretch of the ancestry within the depth limit that ends at a root, before a repetition, or at the limit |
| Lineage.LineageUnique | backend/app/domain/runtime_state.py:214-235 | That description determines lineage and flag |
| Lineage.ReportedCycleIsReal | backend/app/domain/runtime_state.py:227-229 | A reported cycle means an ancestry without end, at any depth limit |
| Lineage.CycleReportedIff | backend/app/domain/runtime_state.py:218-235 | With a limit of at least the number of known sessions a cycle is reported exactly when the ancestry never ends |
| Lineage.CycleWithinLimitIff | backend/app/domain/runtime_state.py:205-235 | At every limit a cycle is reported exactly when an ancestor repeats within the limit |
| Lineage.SmallerLimitMissesCycle | backend/app/domain/runtime_state.py:208-218 | For every number of sessions there is a cycle that a limit one smaller misses |
| CurrentSession.ChooseCurrentSession | backend/app/domain/runtime_state.py:149-198 | The loop and sort choose the specified session and flag more than one candidate |
| CurrentSession.SortedHead | backend/app/domain/runtime_state.py:194-197 | The head of the stable descending sort is the first candidate that none is above |
| CurrentSession.ChosenIsGreatest | backend/app/domain/runtime_state.py:172-198 | A session is chosen exactly when one qualifies, and it is greatest by lease, recency and id |
| CurrentSession.ChoiceOrderFree | backend/app/domain/runtime_state.py:194-197 | With distinct ids the choice does not depend on list order |
| CurrentSession.CandidatesCount | backend/app/domain/runtime_state.py:191-192 | The candidates counted for the multiplicity flag are the distinct qualifying sessions |
| AgentState.FirstSupportedState | backend/app/domain/runtime_state.py:287-296 | The state is the first in precedence order that the evidence supports, and never offline |
| AgentState.AgeingIsMonotone | backend/app/domain/runtime_state.py:131-142 | With evidence fixed and time passing the state only moves down the precedence order |
| AgentState.SettledState | backend/app/domain/runtime_state.py:384-461 | Once every timestamp is outlived only leases, pending approvals and sessions recorded as recent or active still speak |
| AgentState.CurrentSessionIsLive | backend/app/domain/runtime_state.py:320-382 | A current session appears only for a working or awaiting agent, is its own, and is leased or the parent of a running delegation |
| AgentState.WorkingWithoutSessionIff | backend/app/domain/runtime_state.py:312-362 | The exact condition under which a working agent shows no current session |
| AgentState.ConfidenceIff | backend/app/domain/runtime_state.py:359-461 | Which confidence is reported, exactly, from the state and the gateway |
| AgentState.DiagnosticsIff | backend/app/domain/runtime_state.py:322-414 | Each diagnostic is reported exactly in its situation; multiplicity exactly for two or more live sessions |
| AgentState.ReportsAreGrounded | backend/app/domain/runtime_state.py:331-461 | A reported model belongs to the current or an unclosed session, and counts are absent exactly where nothing is known |
| AgentState.DerivationOrderFree | backend/app/domain/runtime_state.py:408-436 | List order shows only in the model reported for a degraded or recently active agent |

## Left out

- Convergence.DrainedClientsAreCurrent: liveness is not stated; that a slow or warned client eventually drains and synchronises depends on the transport.
- IntentService.ActionIntentService.GetIntent: takes the fingerprint of the stored payload text; that parsing the text and printing it again changes nothing is not part of this model.
- PreflightRaces.ReadyMeansApproved: speaks of one approval, because `min_approvers` is computed and never counted.
- Convergence.ClientsNeverDiverge: is about the strict client; frontend/src/features/realtime/realtime-client.ts:169-180 skips the continuity check while it holds no sequence, see `Dashboard.NeverDivergesIff`.
- Dashboard.RealtimeClient.HandleMessage: patches with `Delta.Apply`; the dashboard's cache has some lists fetched again instead of patched, and its REST queries (frontend/src/api/hooks.ts:29-45) can also replace the cache of a client that holds a sequence, which is not part of this model.
- ExecutionLockRuns.NoSlotAfterLock: is about slots and the status; a dispatcher that looked before the lock goes on without a slot, see `DispatchRuns.EmergencyStopIff`.
- ExecutionLockRuns.BudgetNeverExceeded: counts slots claimed, not dispatches; a dispatcher that finds no window open goes on without one, see `DispatchRuns.AllSlottedIff`.
- DispatchRuns.EmergencyStopIff: a dispatcher whose other checks fail never submits; those checks, and what the executor does after the preparation, are not part of this model.
- IntentRuns.StepKeepsInv: takes every call but a preflight as one step, which is right within one process; across processes on one database others can come between its read and its transaction.
- PolicyLifecycle.ActivePolicyIsUnique: takes every change as one step, which is right within one process; backend/scripts/activate_policy_v2.py and activate_policy_v3.py are others.
- PolicyLifecycle.ExecutionPolicyService.GetActivePolicy: takes a stored policy that reads as read back unchanged.
- RateLimit.SlidingWindowBound: takes the check and the insertion of an attempt as one step, which is right within one process, where nothing suspends between backend/app/services/final_preflight_service.py:382 and the insertion; several processes on one database are not modelled.
- ExecutionPolicy.ValidateIntent: reasons are kinds, without their message texts.
- Queue sizes of zero, for which an asyncio queue is unbounded, are excluded by the manager's constructor.
- Of the dashboard only the realtime client is modelled; reconnection delays, the protocol version and malformed messages, which it ignores, are left out.
- A connection made before the first snapshot triggers a sample of its own; it is the next sample step.
- Diagnostic counters, logging, connection shutdown, the WebSocket transport and task cancellation.
- ISO timestamp strings and their comparison: times are integers, their printed forms parameters; a numeric timestamp too large to convert raises in the program.
- SHA-256, HMAC, JSON serialisation and random identifiers; a duplicate identifier is modelled for intents and windows.
- Stripping and upper-casing cover ASCII text.
- The runtime overview's columns that no comparison looks at stand together in one field, agent skills are strings, and nested dictionaries of strings.
- Floating-point usage costs and their aggregation, correlation of tasks and approvals to sessions, and policy differences for display.
- Final execution preflight, the dispatch coordinator, adapters, seeding, scripts and deployment.
