# Verification of the RSAP concurrency and state-machine core

A Dafny 4.11 model of the parts of the repository whose correctness lies in
interleavings and long histories, with proofs about every run.

* **Desktop outbox** (`SyncModel`, `SyncEffects`, `SyncStore`, `SyncFlush` and their proofs). The
  `sync_queue` table with its versioned rows per logical key, predecessor and
  dependency edges, leases with fencing tokens, dead letters and the retention
  purge. Every repository operation is one `BEGIN IMMEDIATE` transaction, so it
  is one function on the tables; `Store` runs the same operations in place.
* **Camera manager, reconcile and worker** (`Manager`, `ManagerOutcomes`, `Reconcile`, `Worker`). A
  step is one stretch of a coroutine between two awaits; callers may be cancelled
  at any await; the scheduler is free. `ManagerObject` and `WorkerObject` hold the
  same stretches as methods on mutable fields.
* **Frame pipeline and capture** (`PipelineDrain`, `Capture`). A step is one
  section under a lock, one call into foreign code, or one stretch of a task.
  `PipelineObject` and `CaptureObject` hold the lock sections as methods.
* **Central service** (`SessionPair`, `CentralTables`, `SuperAdmin`, `SuperAdminLock`). The Redis
  session and refresh keys under the Lua scripts, the idempotent upserts, and the
  rule that the last operational super-admin stays, also with its transactions'
  checks and writes interleaved (`SuperAdminLock`).
* **Analytics counters** (`PeopleCounter`, `ZoneAnalyzer`, `IntrusionDetector`).
  Per-frame state with pruning, over any frame sequence.

Fresh identifiers, tokens, the clock, answers of foreign code and the scheduler's
choices are parameters. Proofs follow one pattern: a machine (`State`, `Step`,
`Enabled`, `Next`), an invariant kept by every step, and theorems about every run
(`Runnable`, `Exec`). Identifiers that the code only compares are numbers. What an
operation leaves behind is also stated on the tables and fields themselves, without
the functions that compute it: in `SyncEffects` for the outbox, on the methods elsewhere.

Six findings:

1. The version order of a logical key holds in every run for camera keys. For
   event, alert and count keys it fails: their identifiers come from the caller,
   and deleting a camera removes the local record, so the same identifier can be
   added again while an older row is in flight (`SyncCounterexample`, thirteen
   transactions from the empty database, with the claims of a sync pass).
   `SyncInvariant.EnqueueSafeIff` gives the exact condition on an enqueue, and
   `SyncTheorems.ItemRowsSafeIff` on a whole run.
2. `IntrusionDetector.cleanup` with an active set forgets cooldowns, and the frame
   pipeline calls it that way. `IntrusionDetector.ActiveCleanupHarmlessIff` gives
   the exact condition on such a cleanup, and `ActiveRunsKeepCooldown` what holds
   of whole runs whose cleanups meet it.
3. `flush_once` counts a failed row as dead by the queue's attempt limit, while
   the row becomes a dead letter by its own, which may have been stored under
   another limit (`SyncFlush.CountedDeadWhileWaiting`). `PassAccounts` says by how
   much the counter is off for any limits, `InterleavedPassAccounts` the same with other
   transactions in between, and `PassCountsDeadIff` when it is exact.
4. The last-super-admin rule rests on the advisory lock: with it no interleaving
   of checks and writes empties the set (`SuperAdminLock.LockKeepsSomeone`), without
   it two super-admins who disable each other at once do (`WithoutLockNobodyStays`).
5. `aclose` refuses further submissions, but a thread that was admitted just before
   it calls `event_callback` after it (`PipelineDrain.CallbackAfterAsking`). There is
   at most one such call, exactly when a thread stands between its admission and its
   call (`NoCallbackAfterAskingIff`), and none once the processes have ended.
6. A camera change that was not sent yet is lost when the camera is changed again: the
   queued PATCH is rewritten with the second change only (`SyncUpdates.RenameIsLost`).
   `SecondUpdateKeepsIff` is the exact condition, and `LostForGood` that no later row
   makes up for it. An unsent create carries no `is_active`, so switching a camera then
   is lost too (`EveryChangeToldIff`).

## Model

| member | source | states |
|---|---|---|
| `SyncInvariant.EnqueueCases` | apps/desktop-backend/app/repositories.py:48-89 | An enqueue either rewrites the newest, never leased row of its key or adds one row directly above it whose predecessor is that newest row |
| `SyncInvariant.EnqueueSafeIff` | apps/desktop-backend/app/repositories.py:48-89 | After an enqueue no row of the key can be leased past an open older one, if and only if the newest row was not closed above an open one |
| `SyncInvariant.InPlaceKeepsOrder` | apps/desktop-backend/app/repositories.py:569-725 | Any transaction that only changes states, leases and coalesced content keeps the lease order of a key |
| `SyncPurge.GraphAcyclic` | apps/desktop-backend/app/repositories.py:48-89 | No row waits, through any chain of predecessors and dependencies, for itself |
| `SyncPurge.PurgeOneKeepsOrder` | apps/desktop-backend/app/repositories.py:772-811 | Removing one retired row, cancelling what waits for it and nulling edges keeps the shape of the graph and the lease order of every key |
| `SyncPurge.PurgeKeepsBuried` | apps/desktop-backend/app/repositories.py:758-813 | The whole purge loop never leaves a live camera's newest row closed above an open one |
| `SyncHistory.GatesPurge` | apps/desktop-backend/app/repositories.py:758-813 | After the purge loop every leased row, and every open row that lost an edge, still has that edge's row on record as once closed, or once succeeded for a dependency |
| `SyncRuns.StepKeepsInv` | apps/desktop-backend/app/repositories.py:48-813 | Every transaction of the outbox, sessions included, keeps the joint invariant of rows, live cameras and history |
| `SyncRuns.RunKeepsInv` | apps/desktop-backend/app/repositories.py:48-813 | The joint invariant holds after every run |
| `SyncTheorems.CameraRowsInOrder` | apps/desktop-backend/app/repositories.py:48-89 | In every run a camera key has at most one row in flight, and below a row that was ever leased every version is closed or gone |
| `SyncTheorems.ItemRowsInOrder` | apps/desktop-backend/app/repositories.py:404-482 | The same for an event, alert or count key, in every run whose additions for it meet the condition of `EnqueueSafeIff` |
| `SyncTheorems.ItemRowsSafeIff` | apps/desktop-backend/app/repositories.py:404-482 | In no state of a run can a row of such a key be leased past an open older one, if and only if every accepted addition for it found the newest row not closed above an open one |
| `SyncCounterexample.TwoRowsInFlight` | apps/desktop-backend/app/repositories.py:370-439 | A reachable database in which two rows of one event key are in flight at once, its claims made as a sync pass makes them |
| `SyncTheorems.NoGateBypassed` | apps/desktop-backend/app/repositories.py:586-598 | Whatever purges happened, a leased or claimable row's original predecessor was once closed and the camera row it was last made to wait for once succeeded |
| `SyncTheorems.GraphStaysAcyclic` | apps/desktop-backend/app/repositories.py:758-813 | The graph is acyclic after every run |
| `SyncTheorems.SettleNeedsLease` | apps/desktop-backend/app/repositories.py:621-725 | Complete and fail act only on the current, unexpired lease and on no other row; a settleable lease is not reclaimable at that instant |
| `SyncTheorems.SupersededTokenIsDead` | apps/desktop-backend/app/repositories.py:569-725 | A token followed by a later lease of its row changes nothing, in any continuation |
| `SyncTheorems.SucceedsAtMostOnce` | apps/desktop-backend/app/repositories.py:624-695 | No row becomes succeeded twice in a run |
| `SyncTheorems.ContentFrozenByLease` | apps/desktop-backend/app/repositories.py:62-75 | From its first lease on, a row's endpoint and payload never change |
| `SyncEffects.EnqueueQueues` | apps/desktop-backend/app/repositories.py:48-89 | One row with the given content, due now and with no attempts, becomes the newest of its key: the newest row rewritten in its place if it waits and was never leased, else a row one version above it that waits for it |
| `SyncEffects.CreateTakesEffect` | apps/desktop-backend/app/repositories.py:259-287 | At the limit nothing; else the camera, unsynced, and its POST with every field of the create request |
| `SyncEffects.UpdateTakesEffect` | apps/desktop-backend/app/repositories.py:318-368 | The camera has the changed fields; its newest row is the unsent POST with the whole configuration, or a PATCH with exactly the changed fields, and analytics configuration and zones together if and only if either changed |
| `SyncEffects.DeleteTakesEffect` | apps/desktop-backend/app/repositories.py:370-396 | The camera and exactly its local records go; a create that waits is cancelled with the waiting rows that depend on it, else a DELETE is queued |
| `SyncEffects.AddTakesEffect` | apps/desktop-backend/app/repositories.py:404-482 | Accepted exactly if the camera is known to the central service or has a row to wait for and the identifier is free; then the item is queued to its endpoint, behind the camera's oldest row until the camera is known |
| `SyncEffects.ClaimTakesEffect` | apps/desktop-backend/app/repositories.py:569-619 | Exactly the first rows that are due or left by a lease that ran out, with their predecessor closed and their dependency succeeded, are leased with one more attempt; other such leases are given back, everything else stays |
| `SyncEffects.FailTakesEffect` | apps/desktop-backend/app/repositories.py:697-725 | The owned row alone becomes a dead letter from its attempt limit on or if the failure is permanent, else waits 1, 2, 4 ... 256 seconds by its attempts, 256 from eight on |
| `SyncEffects.RetentionTakesEffect` | apps/desktop-backend/app/repositories.py:758-813 | The purge removes exactly the old closed and dead rows; edges to them are cut; a remaining row is cancelled only if it is not in flight and waited for a removed dead letter or depended on a removed cancelled row, and always if it pointed at one |
| `SyncEffects.SaveTakesEffect` | apps/desktop-backend/app/repositories.py:108-145 | A login is active under the next generation and cancels every open or dead revocation |
| `SyncEffects.BeginTakesEffect` | apps/desktop-backend/app/repositories.py:188-218 | Only the active session of the expected generation turns to revocation, whose row is queued and leased with one attempt |
| `SyncAttempts.AttemptsAreLeases` | apps/desktop-backend/app/repositories.py:600-610 | In every run a row's attempt count is the number of leases on record since it was created or last came back from the dead letters |
| `SyncAttempts.RefusalBuriesIff` | apps/desktop-backend/app/repositories.py:708-712 | After every run a transient refusal buries a row if and only if it had max_attempts such leases, else it waits for a retry |
| `SyncUpdates.EveryChangeToldIff` | apps/desktop-backend/app/repositories.py:346-363 | The newest row tells every field of an update if and only if the update does not switch the camera while its POST is unsent |
| `SyncUpdates.SecondUpdateKeepsIff` | apps/desktop-backend/app/repositories.py:62-75 | An update that rewrites the unsent row of an earlier one still tells all the earlier fields if and only if that row is the POST or the update changes them again |
| `SyncUpdates.LostForGood` | apps/desktop-backend/app/repositories.py:318-368 | Once no unsent row of the camera tells a field, no later row does in any continuation without an update that asks for it |
| `SyncUpdates.RenameIsLost` | apps/desktop-backend/app/repositories.py:62-75 | A concrete rename followed by a move: the one row left tells only the new place |
| `SyncStore.FindDescendants` | apps/desktop-backend/app/repositories.py:774-782 | The recursive query terminates and returns exactly the rows that reach the root |
| `SyncStore.FindLatest` | apps/desktop-backend/app/repositories.py:57-61 | The newest version of a key, whatever the row order |
| `SyncStore.FindOldest` | apps/desktop-backend/app/repositories.py:404-416 | The oldest row of a camera key, which its analytics rows wait for |
| `SyncStore.ChooseClaims` | apps/desktop-backend/app/repositories.py:586-604 | Exactly the first rows in claim order that are due and whose predecessor and dependency allow it |
| `SyncStore.ListCandidates` | apps/desktop-backend/app/repositories.py:763-769 | Exactly the retired rows, in purge order |
| `SyncStore.Store.Enqueue` | apps/desktop-backend/app/repositories.py:48-89 | In place, the table becomes the specified one, stays well shaped, and the returned row is the newest of its key with the given content |
| `SyncStore.Store.CreateCamera` | apps/desktop-backend/app/repositories.py:259-287 | The camera and its POST row, or nothing at the camera limit |
| `SyncStore.Store.UpdateCamera` | apps/desktop-backend/app/repositories.py:318-368 | In place, with the effect of `SyncEffects.UpdateTakesEffect`: the configuration, and a rewritten POST or a PATCH with exactly the changed fields and, if either changed, both analytics fields |
| `SyncStore.Store.DeleteCamera` | apps/desktop-backend/app/repositories.py:370-396 | Cancels an unsent create with its dependents, or queues a DELETE; local analytics records go with the camera |
| `SyncStore.Store.AddItem` | apps/desktop-backend/app/repositories.py:404-482 | Queues an event, alert or count behind its camera's oldest row, or leaves everything unchanged |
| `SyncStore.Store.Claim` | apps/desktop-backend/app/repositories.py:569-619 | In place: expired leases are returned, then exactly the first due rows with open gates are leased with the new token and one more attempt each |
| `SyncStore.Store.Complete` | apps/desktop-backend/app/repositories.py:624-655 | Succeeds exactly the owned row and marks its local record |
| `SyncStore.Store.CompleteCamera` | apps/desktop-backend/app/repositories.py:657-675 | Succeeds the row and records the central identity; a clash on the unique identity rolls back |
| `SyncStore.Store.CompleteRevocation` | apps/desktop-backend/app/repositories.py:677-695 | Succeeds the row and ends exactly the session of that generation |
| `SyncStore.Store.Fail` | apps/desktop-backend/app/repositories.py:697-725 | Dead letter or retry after the tabled delay, for the owned row only |
| `SyncStore.Store.RetryDeadLetter` | apps/desktop-backend/app/repositories.py:744-750 | Only a dead letter returns to pending with no attempts, due now; nothing else changes |
| `SyncStore.Store.DiscardDeadLetter` | apps/desktop-backend/app/repositories.py:752-756 | Only a dead letter is cancelled; nothing else changes |
| `SyncStore.Store.PurgeRetained` | apps/desktop-backend/app/repositories.py:758-813 | The loop over the snapshot equals the fold of single removals, removes exactly the old rows and cancels only what waited for them |
| `SyncFlush.PassAccounts` | apps/desktop-backend/app/services.py:276-346 | Whatever attempt limits the claimed rows carry: `synced` is the number of rows left succeeded, `dead_lettered` differs from the number left dead by exactly the excess of rows whose limit and the queue's disagree, every retry and no success was counted failed, and lost leases are counted nowhere |
| `SyncFlush.FailedAreRefusals` | apps/desktop-backend/app/services.py:331-345 | `failed` is exactly the number of items the central service refused while their lease was held; a camera under a foreign identity is counted dead and not failed |
| `SyncFlush.VerdictMeans` | apps/desktop-backend/app/services.py:276-345 | The first refused request decides, permanent exactly for a client error not worth a retry; then a foreign camera identity breaks the contract; else the row is done. A DELETE answered 404 and a logout answered 401 or 403 count as done |
| `SyncFlush.PendingClaimsRevocations` | apps/desktop-backend/app/services.py:269-275 | While a revocation is pending a pass claims only revocations, otherwise the first due rows of any kind |
| `SyncFlush.PassCountsDeadIff` | apps/desktop-backend/app/services.py:337-345 | `dead_lettered` is the number of rows buried, for all answers and settling times, if and only if row and queue limits agree about the attempt count of every claimed row that asks the central service something |
| `SyncFlush.DeadIsCountedIff` | apps/desktop-backend/app/services.py:337-345 | One owned row that asks something is counted dead exactly when it becomes a dead letter, for every answer, if and only if its limit and the queue's agree about its attempt count |
| `SyncFlush.CountedDeadWhileWaiting` | apps/desktop-backend/app/services.py:337-345 | A concrete row with limit eight under a queue limit of three, refused for the third time: counted dead, left waiting for a retry |
| `SyncFlush.PassTouchesItsItems` | apps/desktop-backend/app/services.py:276-346 | A pass over any claimed rows changes no other row and removes none |
| `SyncFlush.SyncService.FlushOnce` | apps/desktop-backend/app/services.py:269-350 | Claims, settles every item once with the verdict on its answer, purges, and returns counters that account for the claim under any attempt limits |
| `SyncInterleaved.TokenStep` | apps/desktop-backend/app/repositories.py:569-725 | While a row carries an issued token, no transaction of any kind changes its payload, attempt count or limit |
| `SyncInterleaved.InterleavedPassAccounts` | apps/desktop-backend/app/services.py:276-346 | From the empty database, any run, then a pass's claim, with any transactions of others before each settlement: `synced` is the number of rows its settlements moved to succeeded, `dead_lettered` differs from the number they buried by exactly the excess, `failed` is the number they made after a refusal, and a lease lost in between is counted nowhere |
| `SyncInterleaved.SyncedIsRecorded` | apps/desktop-backend/app/services.py:331-332 | Every row an interleaved pass counts synced is on record as succeeded when it ends |
| `SyncInterleaved.QuietTurnsArePass` | apps/desktop-backend/app/services.py:276-346 | With nothing in between, the interleaved pass leaves the database and counters of the uninterrupted one |
| `SyncDelivery.RowSendsOneItem` | apps/desktop-backend/app/services.py:276-346 | However often and whenever a leased row is sent, it sends the same item |
| `SyncDelivery.RedeliveryIsHarmless` | apps/webapp-backend/app/services/sync_service.py:38-82 | Two delivery histories of one run that send the same rows, in any order and any number of times, leave equal central tables, provided rows that share an identifier carry the same item |
| `SyncDelivery.DistinctAddsAgree` | apps/desktop-backend/app/repositories.py:418-482 | In a run whose accepted additions use no identifier of one central table twice, no two rows ever share one |
| `SyncDelivery.RedeliveryOfDistinctAdds` | apps/webapp-backend/app/services/sync_service.py:38-82 | In such a run redelivery is harmless with nothing to assume of the deliveries |
| `CentralTables.DeliveryIsOrderAndCountFree` | apps/webapp-backend/app/services/sync_service.py:38-82 | Consistent deliveries of the same items give equal tables |
| `CentralTables.OrderFreeIff` | apps/webapp-backend/app/services/sync_service.py:38-82 | Two deliveries of any kinds, an event against a people count included, commute on all tables if and only if they agree about a shared slot up to what merging keeps |
| `CentralTables.ResolvedStays` | apps/webapp-backend/app/services/sync_service.py:54-68 | No delivery makes a resolved alert unresolved |
| `CentralTables.Central.UpsertEvent` | apps/webapp-backend/app/services/sync_service.py:38-82 | For events and people counts: insert, merge, or a refusal that changes nothing when the identifier belongs to another camera |
| `CentralTables.Central.UpsertAlert` | apps/webapp-backend/app/services/sync_service.py:54-68 | The same for alerts, with resolution merged |
| `IsoText.TextIsFieldOrder` | apps/desktop-backend/app/repositories.py:36-37 | Comparing the texts compares the date and time fields, with and without a fraction |
| `IsoText.TextOrderIsTimeOrder` | apps/desktop-backend/app/repositories.py:36-37 | Text order is chronological order for all UTC datetimes, although texts differ in length (the equal-digits condition in section 5.1 of RFC 3339 is not met) |
| `ManagerInvariant.StepKeepsInv` | apps/desktop-backend/app/orchestration/manager.py:66-354 | Every step of starts, stops, restarts, the shutdown, their cancellations and supervisors keeps the joint invariant of locks, tasks and registry |
| `ManagerInvariant.OneSupervisorPerCamera` | apps/desktop-backend/app/orchestration/manager.py:66-175 | In every interleaving two live supervisors of one camera are one, and each is registered |
| `ManagerInvariant.SupervisorsWithinCapacity` | apps/desktop-backend/app/orchestration/manager.py:88-98 | Live supervisors never exceed max_active_workers |
| `ManagerInvariant.LeavesOnlyAfterEnd` | apps/desktop-backend/app/orchestration/manager.py:351-354 | A worker leaves the registry only after its supervisor ended, and is never overwritten |
| `ManagerInvariant.ShutdownEmptiesRegistry` | apps/desktop-backend/app/orchestration/manager.py:279-333 | After the shared shutdown no supervisor is live in any continuation, and only workers whose supervisor task raised can be left |
| `ManagerInvariant.RegistryStaysEmpty` | apps/desktop-backend/app/orchestration/manager.py:279-333 | When no supervisor task raises, the registry is empty after the shutdown and in every continuation, even with starts and restarts in progress |
| `ManagerOutcomes.ReturnsMeanDone` | apps/desktop-backend/app/orchestration/manager.py:66-175 | In every interleaving: when a stop returns its camera is out of the registry; when a start or restart returns the camera is registered with the definition asked for, or a start found it running |
| `ManagerOutcomes.FailuresLeaveNothing` | apps/desktop-backend/app/orchestration/manager.py:66-175 | In every interleaving: a call that fails for capacity found the registry full; one cancelled while its worker starts or is undone does not end yet; one that ends with an error after bringing a worker up leaves none of it registered, unless the supervisor raised or the call was cancelled again while it waited |
| `ManagerObject.CameraWorkerManager.GetCameraLock` | apps/desktop-backend/app/orchestration/manager.py:335-341 | One lock per camera, shared with no other camera |
| `ManagerObject.CameraWorkerManager.AdmitWorker` | apps/desktop-backend/app/orchestration/manager.py:88-98 | Refused when closed or full, otherwise the camera's only worker |
| `ManagerObject.CameraWorkerManager.RemoveWorker` | apps/desktop-backend/app/orchestration/manager.py:351-354 | Removes exactly the camera's entry, its supervisor having ended |
| `ManagerObject.CameraWorkerManager.CloseAdmission` | apps/desktop-backend/app/orchestration/manager.py:279-287 | Closes admission for good and asks for one shutdown |
| `Reconcile.JobStep` | apps/desktop-backend/app/orchestration/manager.py:226-249 | A start or restart of a desired camera always finds room and ends with the desired definition when it returns |
| `Reconcile.DecisionMeans` | apps/desktop-backend/app/orchestration/manager.py:226-232 | A desired camera is left alone exactly if its worker looked running with the desired definition, started exactly if it has none, else restarted |
| `Reconcile.ReconcileSettles` | apps/desktop-backend/app/orchestration/manager.py:177-249 | From any reachable quiet manager and a catalog of at most max_active_workers cameras, no call of the reconcile fails for capacity and a normal return leaves exactly the catalog's ids and definitions, whoever is cancelled; duplicate ids fail at once |
| `WorkerInvariant.StepKeepsInv` | apps/desktop-backend/app/orchestration/worker.py:160-505 | Every step of supervisor, stop, loops, dispatcher and callbacks keeps the joint invariant |
| `WorkerInvariant.TransitionsAreValid` | apps/desktop-backend/app/orchestration/models.py:77-95 | No request outside the transition table in any interleaving; the states entered are a path of it |
| `WorkerInvariant.ClosedOnceBeforeTerminal` | apps/desktop-backend/app/orchestration/worker.py:269-302 | Nothing is closed twice; in STOPPED or FAILED both loops are over and each resource built was closed exactly once |
| `WorkerInvariant.EventsAreConserved` | apps/desktop-backend/app/orchestration/worker.py:365-429 | The sink sees a prefix of the accepted events in order; at termination all of them, each emitted or counted as a sink failure; every callback is accounted for |
| `WorkerInvariant.CountersAreSteps` | apps/desktop-backend/app/orchestration/worker.py:405-427 | In every run events_emitted is how often the sink accepted an event and event_sink_failures how often it raised or timed out; every callback is counted |
| `WorkerInvariant.EndsFailedIff` | apps/desktop-backend/app/orchestration/worker.py:200-302 | A worker that ended is FAILED if and only if a factory, a loop or the pipeline's close failed in its run, and STOPPED otherwise |
| `WorkerInvariant.NothingAfterEnd` | apps/desktop-backend/app/orchestration/worker.py:462-481 | After termination no event is accepted or delivered and no state or resource changes |
| `WorkerObject.CameraWorker.Transition` | apps/desktop-backend/app/orchestration/worker.py:507-527 | An allowed or idle request enters the state and keeps the history a path of the table; a refused one leaves the state; history is never rewritten |
| `WorkerObject.CameraWorker.RequestStop` | apps/desktop-backend/app/orchestration/worker.py:178-191 | Stops accepting, signals, and the capture built so far is closed exactly once |
| `WorkerObject.CameraWorker.CaptureResult` | apps/desktop-backend/app/orchestration/worker.py:307-340 | One read's effect; never a refused transition |
| `WorkerObject.CameraWorker.QueueEvent` | apps/desktop-backend/app/orchestration/worker.py:365-393 | Accepted exactly when open, valid and with room; otherwise counted as dropped or rejected |
| `WorkerObject.CameraWorker.TakeItem` | apps/desktop-backend/app/orchestration/worker.py:395-406 | Takes the oldest accepted event not yet delivered |
| `WorkerObject.CameraWorker.SinkReturned` | apps/desktop-backend/app/orchestration/worker.py:402-429 | An accepted event raises emitted by one, a failed one the sink failures, and nothing else is counted |
| `WorkerObject.CameraWorker.FinishRun` | apps/desktop-backend/app/orchestration/worker.py:292-302 | FAILED or STOPPED with all events delivered and all resources closed |
| `PipelineDrain.StepKeepsInv` | packages/cv-engine/cv_engine/pipeline/frame_pipeline.py:103-384 | Every step of threads, callback tasks and close keeps the joint invariant |
| `PipelineDrain.BacklogIsBounded` | packages/cv-engine/cv_engine/pipeline/frame_pipeline.py:284-315 | Listed and unfinished callback tasks never exceed max_pending_callbacks, although a reservation is released before its callback task is listed |
| `PipelineDrain.ClosedMeansSettled` | packages/cv-engine/cv_engine/pipeline/frame_pipeline.py:210-236 | The executor is shut down and the close finishes only with no process, submission or task left; the unsettled check never fails |
| `PipelineDrain.NothingAfterClose` | packages/cv-engine/cv_engine/pipeline/frame_pipeline.py:103-107 | After close nothing changes in any continuation |
| `PipelineDrain.NothingAdmittedAfterAsking` | packages/cv-engine/cv_engine/pipeline/frame_pipeline.py:273-279 | Once close was asked for, no submission is admitted in any continuation |
| `PipelineDrain.LateCallsAreAdmitted` | packages/cv-engine/cv_engine/pipeline/frame_pipeline.py:273-282 | From then on `event_callback` is called exactly by the threads that had been admitted and go on to call; there is at most one, so at most one late call |
| `PipelineDrain.NoCallbackAfterAskingIff` | packages/cv-engine/cv_engine/pipeline/frame_pipeline.py:187-208 | A closing pipeline makes no further call in any continuation if and only if no thread stands between its admission and its call |
| `PipelineDrain.CallsEndWithProcesses` | packages/cv-engine/cv_engine/pipeline/frame_pipeline.py:210-214 | Once the close has seen every process end, `event_callback` is never called again |
| `PipelineDrain.RaisedEmitsNoMore` | packages/cv-engine/cv_engine/pipeline/frame_pipeline.py:273-315 | A thread that was refused a submission or a place in the backlog, or whose callback or callback task raised, emits nothing more before it leaves, in any continuation |
| `PipelineDrain.CallbackAfterAsking` | packages/cv-engine/cv_engine/pipeline/frame_pipeline.py:276-282 | A concrete run in which a thread is admitted, close is asked for, and the thread calls |
| `PipelineObject.FramePipeline.EnterProcess` | packages/cv-engine/cv_engine/pipeline/frame_pipeline.py:103-107 | Admitted and counted exactly while open |
| `PipelineObject.FramePipeline.BeginSubmission` | packages/cv-engine/cv_engine/pipeline/frame_pipeline.py:273-279 | Admitted and counted exactly while callbacks are accepted, never once closing; the callback itself is called after the section |
| `PipelineObject.FramePipeline.ReserveTask` | packages/cv-engine/cv_engine/pipeline/frame_pipeline.py:284-298 | Reserved exactly when fewer tasks than the limit are listed |
| `PipelineObject.FramePipeline.CallbackFinished` | packages/cv-engine/cv_engine/pipeline/frame_pipeline.py:367-376 | Removes the finished task, which was listed |
| `PipelineObject.FramePipeline.BeginClose` | packages/cv-engine/cv_engine/pipeline/frame_pipeline.py:197-208 | The first caller starts the one close; callbacks are refused from here |
| `PipelineObject.FramePipeline.CheckSettled` | packages/cv-engine/cv_engine/pipeline/frame_pipeline.py:221-223 | Always finds everything settled |
| `Capture.StepKeepsInv` | packages/cv-engine/cv_engine/streaming/capture.py:46-128 | Every section of readers and closers keeps the ownership invariant |
| `Capture.EveryCandidateHasOnePlace` | packages/cv-engine/cv_engine/streaming/capture.py:46-128 | Each candidate is installed, in one thread's hands, or released, exactly one of these, and released at most once |
| `Capture.InstallsNeverReplace` | packages/cv-engine/cv_engine/streaming/capture.py:103-113 | Generations are installed in strictly increasing order and an install never finds a capture to replace |
| `Capture.LoserReturns` | packages/cv-engine/cv_engine/streaming/capture.py:102-114 | An opened candidate is installed if and only if nothing was closed and its generation is the current one; only then does its thread read, otherwise it is released once and the thread returns |
| `Capture.NothingInstalledAfterClose` | packages/cv-engine/cv_engine/streaming/capture.py:119-128 | After close nothing is installed; when all threads returned, every candidate was released exactly once |
| `CaptureObject.ResilientCapture.Decide` | packages/cv-engine/cv_engine/streaming/capture.py:56-67 | Draws a new generation and takes out the stale capture exactly when a connect is needed |
| `CaptureObject.ResilientCapture.TryInstall` | packages/cv-engine/cv_engine/streaming/capture.py:103-109 | Installs exactly an opened candidate of the current generation before close; nothing is replaced |
| `CaptureObject.ResilientCapture.TakeFailed` | packages/cv-engine/cv_engine/streaming/capture.py:71-79 | Takes out the capture whose read failed |
| `CaptureObject.ResilientCapture.CloseOnce` | packages/cv-engine/cv_engine/streaming/capture.py:119-128 | Hands the installed capture to the first closer only |
| `SessionPair.LivePairIsCoherent` | apps/webapp-backend/app/services/session_service.py:14-99 | In every reachable state two live keys share one sid, with expiries exactly the two minima, and the session expiry its login granted |
| `SessionPair.EachTokenRotatesOnce` | apps/webapp-backend/app/services/session_service.py:14-49 | No refresh token is exchanged twice |
| `SessionPair.ExchangesPresentTheToken` | apps/webapp-backend/app/services/session_service.py:24-33 | In every run each exchange presented the hash its token was issued with |
| `SessionPair.LoginOpensPair` | apps/webapp-backend/app/services/session_service.py:164-179 | A login leaves a pair of its sid, hashes and expiries, live exactly if neither expiry is reached |
| `SessionPair.SessionExpiryIsFixed` | apps/webapp-backend/app/services/session_service.py:63-99 | session_expires_at of a session is the same in any two states of a run |
| `SessionPair.PairEndsIff` | apps/webapp-backend/app/services/session_service.py:51-99 | A live pair ends by exactly a login, its own or a user revocation, a reconcile for another sid, or its expiry |
| `SessionPair.PairSurvives` | apps/webapp-backend/app/services/session_service.py:286-347 | Over whole runs without these the pair stays live under its sid with its session expiry |
| `SessionPair.LateRevokeIsHarmless` | apps/webapp-backend/app/services/session_service.py:51-61 | A late revocation of one sid leaves a live pair of another untouched and ends its own |
| `SessionPair.ReconcileAgrees` | apps/webapp-backend/app/services/session_service.py:140-161 | The Lua script succeeds exactly when the Python rule accepts, with the same expiries |
| `SessionPair.SessionStore.RotateRefresh` | apps/webapp-backend/app/services/session_service.py:250-268 | Exchanged if and only if both keys are live, hash, token id and session id are the stored ones and no new expiry has passed; then the replacement and both minima are stored, else nothing changes |
| `SessionPair.SessionStore.DeleteIfSid` | apps/webapp-backend/app/services/session_service.py:182-186 | Both keys go unless a live session has another sid, in which case nothing changes |
| `SessionPair.SessionStore.ReconcilePair` | apps/webapp-backend/app/services/session_service.py:320-335 | Succeeds exactly for a live pair of one sid in scope, under a current licence, whose absolute expiries lie ahead; then licence and both minima are stored; else the pair is removed, or left if only the licence is not current |
| `SuperAdmin.RefusedIffLast` | apps/webapp-backend/app/services/rbac_service.py:78-133 | A mutation past its other checks is refused exactly when its write would empty a non-empty operational set |
| `SuperAdmin.SomeoneStaysOperational` | apps/webapp-backend/app/routers/licenses.py:84-145 | At a fixed clock every run by any actors keeps an operational super-admin, overlapping licences included |
| `SuperAdminLock.LockKeepsSomeone` | apps/webapp-backend/app/services/rbac_service.py:72-75 | The same when the checks and writes of the transactions interleave under the advisory lock, unlocked creations and edits beside them |
| `SuperAdminLock.WithoutLockNobodyStays` | apps/webapp-backend/app/services/rbac_service.py:16-19 | Without the lock a run of two mutations leaves nobody operational |
| `SuperAdmin.OnlySuperAdminsTouchSuperAdmins` | apps/webapp-backend/app/services/rbac_service.py:65-69 | An admin changes no super-admin's row and takes none out of service |
| `SuperAdmin.ToggleTwiceRestores` | apps/webapp-backend/app/routers/users.py:153-155 | An accepted toggle changes the tables and a second one restores them |
| `SuperAdmin.Directory.ProtectLastSuperAdmin` | apps/webapp-backend/app/services/rbac_service.py:78-133 | Refuses exactly when the target is the only operational one and the remaining licences do not keep it so |
| `SuperAdmin.Directory.UpdateUser` | apps/webapp-backend/app/routers/users.py:74-108 | Each answer exactly for its reason in the router's order; an accepted patch sets the given role of that user alone; a non-empty operational set stays non-empty |
| `SuperAdmin.Directory.DeleteUser` | apps/webapp-backend/app/routers/users.py:111-134 | The same for deletion |
| `SuperAdmin.Directory.ToggleActive` | apps/webapp-backend/app/routers/users.py:137-164 | The same for activation: an accepted toggle flips that user alone, refused if it is the only operational super-admin |
| `SuperAdmin.Directory.UpdateLicence` | apps/webapp-backend/app/routers/licenses.py:73-119 | The same for a licence patch, protected only when the licence ends up inactive |
| `SuperAdmin.Directory.ExpireLicence` | apps/webapp-backend/app/routers/licenses.py:122-147 | The same for expiry |
| `PeopleCounter.RunFollows` | packages/cv-engine/cv_engine/pipeline/people_counter.py:37-93 | Over any run of frames, cleanups and resets, the history follows the counter and logs exactly the crossings returned since the last reset |
| `PeopleCounter.CrossingsAreTheMoves` | packages/cv-engine/cv_engine/pipeline/people_counter.py:37-93 | From a new counter, over any run: the counts are the crossings returned since the last reset, a track's episodes one after the other hold exactly its crossings, each episode alternates, and the counts balance over the episodes |
| `PeopleCounter.CountsBalance` | packages/cv-engine/cv_engine/pipeline/people_counter.py:37-93 | Over any run, IN and OUT alternate in every episode and count_in minus count_out is the sum over all episodes, pruned ones included, of half the way from first to current side |
| `PeopleCounter.CrossingsAreWalks` | packages/cv-engine/cv_engine/pipeline/people_counter.py:37-74 | After any run the next frame returns exactly the walks over the line of the tracks held, in order: IN from a clear negative to a clear positive distance, OUT the other way |
| `PeopleCounter.LineCounter.Update` | packages/cv-engine/cv_engine/pipeline/people_counter.py:37-74 | The loop computes the specified counter and the crossings in order, which are the walks over the line; a track is held after it exactly if it was or is seen clear, and not unseen for too long |
| `PeopleCounter.LineCounter.Cleanup` | packages/cv-engine/cv_engine/pipeline/people_counter.py:81-93 | Drops exactly the stale or inactive tracks and returns how many |
| `PeopleCounter.LineCounter.ResetAll` | packages/cv-engine/cv_engine/pipeline/people_counter.py:76-79 | Counts, tracks and the frame index are those of a new counter |
| `ZoneAnalyzer.EntriesAndExitsAlternate` | packages/cv-engine/cv_engine/pipeline/zone_analyzer.py:21-70 | Over any frames, per zone and stay of a track ENTER and EXIT alternate from ENTER, and presence is an odd number of moves |
| `ZoneAnalyzer.AlternateFromStart` | packages/cv-engine/cv_engine/pipeline/zone_analyzer.py:14-70 | The same from a new analyzer, dropped stays included; a track is inside exactly when its last move is an ENTER |
| `ZoneAnalyzer.LastMoveIsLastSighting` | packages/cv-engine/cv_engine/pipeline/zone_analyzer.py:32-48 | Over any frames from a new analyzer, a retained track's last move in a zone is an ENTER if and only if its last detection was inside |
| `ZoneAnalyzer.PolygonAnalyzer.Analyze` | packages/cv-engine/cv_engine/pipeline/zone_analyzer.py:21-51 | For every zone and track the frame's moves are one wherever its detections change between inside and outside, and a track that stays is afterwards where it was last detected |
| `ZoneAnalyzer.PolygonAnalyzer.DiscardStale` | packages/cv-engine/cv_engine/pipeline/zone_analyzer.py:62-70 | A track stays exactly when seen within the limit; presence is lost only with its track, and nothing kept changes |
| `IntrusionDetector.ForgettingShowsIff` | packages/cv-engine/cv_engine/pipeline/intrusion_detector.py:24-45 | One batch: alerts after forgetting equal those of fuller memory exactly when the batch holds no first watched entry of a forgotten key within its cooldown |
| `IntrusionDetector.AlertIff` | packages/cv-engine/cv_engine/pipeline/intrusion_detector.py:28-44 | Event by event, an alert is raised exactly for an entry into a watched zone with no alert of its zone and track less than the cooldown before |
| `IntrusionDetector.ActiveCleanupHarmlessIff` | packages/cv-engine/cv_engine/pipeline/intrusion_detector.py:47-61 | A cleanup with an active set changes no later alert, for all later calls with events from then on, if and only if every watched cooldown it drops has run out |
| `IntrusionDetector.ActiveRunsKeepCooldown` | packages/cv-engine/cv_engine/pipeline/intrusion_detector.py:24-61 | Whole runs with active sets whose cleanups meet that condition alert as a detector that never forgets, with alerts of one key at least the cooldown apart |
| `IntrusionDetector.ActiveSetForgetsCooldown` | packages/cv-engine/cv_engine/pipeline/intrusion_detector.py:54-60 | A concrete second alert within the cooldown after cleanup with an active set |
| `IntrusionDetector.PruningIsInvisible` | packages/cv-engine/cv_engine/pipeline/intrusion_detector.py:24-61 | With no event later than the retention margin, a run's alerts are those of a detector that never forgets |
| `IntrusionDetector.SteadyRunsKeepCooldown` | packages/cv-engine/cv_engine/pipeline/intrusion_detector.py:24-61 | With one timestamp per batch, never before a time already used, and no active sets, two alerts of one key are at least the cooldown apart and the alerts are those of a detector that never forgets |
| `IntrusionDetector.Detector.CheckBatch` | packages/cv-engine/cv_engine/pipeline/intrusion_detector.py:24-45 | After pruning by the latest timestamp, each event raises its alert by that rule and what is remembered are the last alerts |
| `IntrusionDetector.Detector.CleanUp` | packages/cv-engine/cv_engine/pipeline/intrusion_detector.py:47-61 | Drops exactly the expired or inactive entries and returns how many |

## Left out

- SyncTheorems.ItemRowsInOrder: conditional, because the order is false in general for caller-chosen identifiers (`SyncCounterexample.TwoRowsInFlight`); the condition is checked before each addition, and `ItemRowsSafeIff` shows that it is exact.
- SyncTheorems.CameraRowsInOrder: says nothing of `session:revoke`, because `begin_revocation` leases its row without the predecessor test.
- SyncDelivery.RedeliveryIsHarmless: asks that rows sharing a central identifier carry the same item; `RedeliveryOfDistinctAdds` derives this from the run, and `CentralTables.OrderFreeIff` shows that rows which disagree about one identifier do not commute. `synced_at` is not part of the tables.
- ManagerInvariant.ShutdownEmptiesRegistry: a worker whose supervisor task itself raised stays registered, as in the code; `WorkerInvariant.TransitionsAreValid` shows that the worker's own transitions never raise, and `RegistryStaysEmpty` is the case without such a raise.
- SyncFlush.PassAccounts: other transactions between the items of one pass are interleaved in `SyncInterleaved.InterleavedPassAccounts`; there the counts are of what each settlement did, since a later transaction may retry or purge the row. Other passes are taken to record a camera under its local identity, as `flush_once` does.
- IntrusionDetector.ForgettingShowsIff: speaks of one batch; for all later calls the exact condition is `ActiveCleanupHarmlessIff`.
- IntrusionDetector.SteadyRunsKeepCooldown: excludes the active set the frame pipeline passes, for which the property is false; `ActiveCleanupHarmlessIff` and `ActiveRunsKeepCooldown` are the exact condition and what it gives.
- Saving and revoking sessions are steps of the outbox machine on values only; other changes of the session row are one step that may write anything. Error codes, messages and encrypted columns are not modelled, and one transaction reads the clock once.
- Rows written by migrations, and SQL constraints beyond unique ids and versions.
- Leases and retries expire by comparing numbers; `IsoText` connects them to the text columns.
- The manager, pipeline and capture machines are proved on values; their objects cover the lock sections, with thread positions as ghost state. Statuses, generations and result objects of the manager, frame buffers, timing metrics and error texts are not modelled.
- The worker assumes that the sink, the factories and `aclose` raise no cancellation of their own, that a rejected callback raises the orchestration error, and that nobody cancels the supervisor.
- The pipeline's synchronous `close`, `wait_for_callbacks`, the refusal to await `aclose` from a callback, and the collected callback errors.
- Methods of the foreign capture other than the factory and `read` are taken not to raise; the reconnect delay is a free choice.
- Redis may hold a key alive one tick longer or shorter at exactly its expiry instant; no result of `SessionPair` depends on it.
- Session scripts on malformed JSON or missing fields; the SQL session and outbox tables; the order of outbox rows (any order of their effects is allowed).
- Creating users and licences are operations of the super-admin machine without methods; permissions, e-mail columns and audit rows are not modelled, and the clock does not move within a run.
- Geometry: signed distances, sides and polygon membership are inputs; `frame_pipeline.process` around the analyzers is not modelled.
- HTTP routing, schemas, frontends, object storage, cryptography, detection and tracking.
