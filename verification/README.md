# vworkspace-operator: verified protocols

A Dafny model of the crash-tolerant protocols inside the vworkspace Kubernetes operator, with proofs about
every run of them. `dafny verify dfyconfig.toml` checks the project.

| file | what it models |
|---|---|
| Text, EventKeys, Codec | trimming, splitting, event keys, base64url, UTF-8, JSON literals |
| Batcher | the bounded outbound event buffer, its critical sections and its runs |
| ControlPlane | the receiving side: events deduplicated by key |
| Delivery | the managed-storage handshake as a transition system: each critical section, API call and annotation patch is one step, steps of the flusher, of all reconciles and of other reporters interleave, calls fail, conflict or lose their reply, reads may be stale, the process restarts |
| DeliverySafety, DeliveryProgress, DeliveryInterleaved, DeliveryAck, DeliveryAckInterleaved, DeliveryOnce, DeliveryRace | what holds of its runs: safety, that an event due is sent, that a delivery is acknowledged, that one copy is outstanding; DeliveryRace gives the runs that show why each part of the schedule of DeliveryOnce is needed |
| StorageReconciler | the same code in imperative form, each method proved to take exactly the steps of Delivery that its script of call outcomes prescribes |
| Idempotency, Applier | pull-job idempotency: the cache over a ConfigMap, and ApplyJob under crashes |
| Conditions | condition lists, set in place, and the reported diff |
| Registration, RegistrationSafety, RegistrationRecord, RegistrationCredentials | one-time token registration, rotation and heartbeat under lost writes; exactly which reconciles record the exchange, and whose answer the stored credentials are |
| ApprovalClaim | signed approval claims |
| Concurrency (with Approvals), Operations, OperationsSafety, OperationsStatus, OperationsLife, OperationsOutcome, OperationsRuns | the conflict matrix, the approval gate and the phase machine over an unbounded set of operations; OperationsRuns gives runs from nothing into what the rules do not prevent |
| S3Credentials | which credential of a release is reported |

Where the source changes state step by step the model does too: classes whose methods are proved equal to, or
to be runs of, specification functions, and the theorems are about all runs of those functions. A run is a
sequence of steps; a step that is not enabled changes nothing, so a theorem over all sequences covers every
interleaving.

## Assumptions

- One flusher, because only `Start` loops over `Flush`. Reconciles of one object are serial, and so is the job poller. Operations are reconciled one at a time from current lists; their verb and target do not change.
- Nobody else edits the operator's annotations, its ConfigMap or its credentials Secret.
- SHA-256, HMAC and the JSON decoder are parameters. The claim round trip assumes of the decoder only that it reads back the one payload that was issued; a decoder that reads back every payload is given and proved to.
- Namespaces, names and report keys hold no slash (they are Kubernetes names and hexadecimal digests).
- Clocks, reads, patches, posts and engine answers are parameters that take every value.

Where the code and its documentation disagree the model follows the code: the comment on `ObservedToken`
(api/ops/v1alpha1/cluster_types.go:151) says that a changed fingerprint triggers re-registration, but with stored
credentials the code adopts the new fingerprint without an exchange.

## What turned out not to hold

- One copy at a time needs more than the maps' lock. Everything may interleave, but a reconcile makes two looks at the in-memory marks at which a missing mark can stand for an event that is there. It is misled when it looks for the in-flight mark after the acknowledgement has overtaken it, or for the posting mark after the acknowledgement has overtaken it or while a copy is on its way unmarked. As long as no look is misled, with current reads and a fixed key, the property holds in one process lifetime (`DeliveryOnce.OneOutstandingCopy`). From every reachable misled look that finds no copy buffered, the rest of the reconcile sends another (`DeliveryOnce.MisledSendsAgain`). Every kind of misled look is reached (`DeliveryRace.SecondCopy`, `SecondCopyAtPosting`, `GapsSendTwice`, `LostMarkSendsTwice`), and there are runs for every instance and key with a stale read (`StaleReadSendsAgain`), credentials rotated away and back (`RotationSendsTwice`) and a restart (`RestartSendsAgain`).
- A recorded post is not acknowledged while another copy is on its way: `DeliveryAck.AcknowledgementProgress` gives the exact condition and `RecordedPostMayWait` the run. A pending acknowledgement is overwritten when the callback marks another key inside the reconcile (`DeliveryAckInterleaved.RotationForgetsPending`); with a fixed key and current reads it is not (`AcknowledgementInterleaved`).
- A job whose key could not be written is not tried again by the same process: the next attempt is a replay (`Applier.FailedWriteReplays`).
- Phases of operations are not stable: `OperationsLife.PhaseKeptExactlyWhen` gives the exact condition. Two operations that exclude each other deadlock in a run without faults (`OperationsRuns.DeadlockReachable`) and stay so (`OperationsLife.StuckForever`).
- The conflict matrix is one-directional for upgrades and restores: a run without faults has both Running on one target (`OperationsRuns.UpgradeBesideRestoreReachable`). `OperationsLife.StartsExactlyWhen` gives the exact condition of a start.
- A credentials Secret that cannot be read is taken for a missing one, and the token is spent again (`RegistrationSafety.UnreadableGuardSpendsAgain`, from a new cluster in `RegistrationRecord.TokenSpentTwice`); `RegisterCalledExactlyWhen` gives the exact condition.
- The record of an inline token can be lost: the token leaves the spec before the status write (`RegistrationRecord.InlineRecordLost`, from a new cluster in `InlineLossReachable`). With no token put back it is recorded later exactly when some reconcile starts from an outdated copy that still has the token and gets its success or adopting write through (`InlineRecordExactlyWhen`).
- Event keys do not parse back, and can collide, when a part holds a slash (`EventKeys.ManagedStorageKeyParses`, `SlashesCollide`).
- Job keys that are blank after trimming are not tracked (`Applier.BlankKeysAreNotTracked`).

## Model

| member | source | states |
|---|---|---|
| `Batcher.EventBatcher.constructor` | internal/agent/events.go:42-49 | a new buffer is empty, with the default limits and no overflow |
| `Batcher.EventBatcher.HasEventKey` | internal/agent/events.go:59-71 | found exactly when the key is not empty and some buffered event has it |
| `Batcher.EventBatcher.RecordOverflow` | internal/agent/events.go:108-114 | raises the overflow flag and counts what was dropped, leaving the events |
| `Batcher.EventBatcher.Enqueue` | internal/agent/events.go:74-91 | the stamped event goes last, and of the longer list exactly the newest up to the limit (1000 by default) are kept; the dropped ones are counted |
| `Batcher.EventBatcher.TakeBatch` | internal/agent/events.go:137-153 | the batch is the oldest events, as many as there are up to the batch limit (100 by default), and the rest stays; empty exactly when the buffer was |
| `Batcher.EventBatcher.Requeue` | internal/agent/events.go:188-203 | the batch goes back in front, and of the longer list exactly the newest up to the limit are kept; the dropped ones are counted |
| `Batcher.EventBatcher.CloseFlush` | internal/agent/events.go:180-184 | the overflow state is cleared exactly when the buffer is empty after an accepted post |
| `Batcher.EventBatcher.Flush` | internal/agent/events.go:137-186 | the buffer after a whole flush: without a client, with a refused and with an accepted post |
| `Batcher.EnqueueKeepsNewest` | internal/agent/events.go:74-91 | the buffer after an enqueue, in terms of list and limit alone: the newest of old events and stamped event, and the overflow count raised by what is missing |
| `Batcher.RequeueKeepsNewest` | internal/agent/events.go:188-203 | the same for a batch put back in front |
| `Batcher.TakesOldest` | internal/agent/events.go:144-151 | batch and remaining events make up the old buffer, and the batch is as long as the limit allows |
| `Batcher.FailedFlushRestores` | internal/agent/events.go:137-203 | extracting a batch and putting it back after a failed post gives the same buffer |
| `BatcherRuns.EveryRun` | internal/agent/events.go:74-203 | every run: accepted, in flight and buffered events follow the enqueue order without repetition; every enqueued event is in exactly one place (accepted, in flight, buffered, dropped, discarded, lost in a crash); limits hold; the overflow counter is the number dropped since a flush last found the buffer empty after an accepted post |
| `BatcherRuns.DropsOnlyWhenFull` | internal/agent/events.go:84-88 | in every run a step that drops events is an enqueue or a requeue, drops the oldest, and leaves the buffer exactly full |
| `BatcherRuns.NothingDroppedWithinLimit` | internal/agent/events.go:80-88 | no run drops an event before more events were enqueued than the buffer holds |
| `ControlPlane.EventLog.HandleEvents` | test/mockcontrolplane/server.go:386-411 | the log after a batch is the specification's ingest of it |
| `ControlPlane.IngestExact` | test/mockcontrolplane/server.go:397-410 | however batches repeat, no two stored events share a non-blank trimmed key, what was stored stays, and every keyed event of the batch has an event with its key stored |
| `ControlPlane.IngestStores` | test/mockcontrolplane/server.go:397-410 | a post stores, as they came and in order, exactly the events without a key and the first of each key not there before, whatever the store held; the known keys grow by exactly those of the batch |
| `ControlPlane.RetryHarmless` | test/mockcontrolplane/server.go:397-410 | posting a batch of keyed events twice is posting it once |
| `EventKeys.ManagedStorageKeyParses` | internal/agent/reporter.go:58-80 | the report key is recovered from a managed-storage key exactly when no part holds a slash, and otherwise the key is refused |
| `EventKeys.EndpointsKeyParses` | internal/agent/reporter.go:91-105 | the same for endpoints keys |
| `EventKeys.ManagedStorageKeyInjective` | internal/agent/reporter.go:58-68 | slash-free parts are determined by their managed-storage key |
| `EventKeys.EndpointsKeyInjective` | internal/agent/reporter.go:103-105 | slash-free parts are determined by their endpoints key |
| `EventKeys.SlashesCollide` | internal/agent/reporter.go:58-68 | two resources with a slash in a part print one key |
| `EventKeys.FamiliesDisjoint` | internal/agent/reporter.go:58-184 | neither parser accepts a key of the other family, of a condition transition or of ManagedStorageFailed, whatever the parts |
| `EventKeys.ParsersDisjoint` | internal/agent/reporter.go:71-100 | no string is accepted by both parsers |
| `EventKeys.StorageDeliveryKeyInjective` | internal/controller/applicationinstance_controller.go:820-822 | a delivery key of the in-memory maps stands for one instance |
| `EventKeys.ReportKey` | internal/controller/applicationinstance_controller.go:1050-1053 | a report key is sixteen slash-free characters |
| `EventKeys.ReportKeyExact` | internal/controller/applicationinstance_controller.go:1050-1053 | two report keys agree exactly when the first eight digest bytes do, and the key decodes to them |
| `EventKeys.ConditionKeyIsJoin` | internal/agent/reporter.go:164-184 | a condition key is the prefix, API version, kind, namespace, name, uid, type and status at generation joined by slashes, an underscore standing for a blank namespace or uid |
| `DeliverySafety.NoFalseAcknowledgement` | internal/controller/applicationinstance_controller.go:380-492 | in every state of every interleaving, a key in the reported or posted annotation, current or in any stale copy, or in the pending-ack map, was carried for that instance by a batch PostEvents accepted |
| `DeliverySafety.PostingMeansInHand` | internal/controller/applicationinstance_controller.go:643-664 | a posting mark stands for an event of the batch the flusher is posting |
| `DeliverySafety.ExactlyOnceAtControlPlane` | internal/agent/events.go:161-176 | with lost replies, retries and restarts the control plane never stores two events under one non-blank key, and stores an event for the key of every event whose post succeeded |
| `DeliverySafety.OrderAndConservation` | internal/agent/events.go:137-203 | order, conservation and overflow accounting hold through the whole protocol |
| `DeliveryProgress.BufferCheckExact` | internal/agent/reporter.go:83-88 | the pending-event check sees exactly the buffered events of this instance and report key |
| `DeliveryProgress.NoStuckDelivery` | internal/controller/applicationinstance_controller.go:413-491 | from any reachable state where the key was never accepted and no copy is buffered or in flight, one reconcile whose calls succeed enqueues exactly the instance's event and marks it in flight, whatever stale claims and marks were left |
| `DeliveryInterleaved.NoStuckInterleaved` | internal/controller/applicationinstance_controller.go:413-491 | the same with flusher steps, other reporters and other instances' reconciles interleaved at will and with any outcome, from a current or stale read: after at most twelve steps of its own the reconcile has enqueued the event |
| `DeliveryAck.ReconcileDecides` | internal/controller/applicationinstance_controller.go:413-491 | in every state without a running reconcile, what one reconcile whose calls succeed comes to: a reported key or a pending acknowledgement ends reported with nothing remembered and neither claim nor post left; else a copy on its way is waited for; else a recorded post is acknowledged; else the event is claimed and sent |
| `DeliveryAck.AcknowledgementProgress` | internal/controller/applicationinstance_controller.go:428-464 | from every reachable state, such a reconcile ends with the key reported and the instance in none of the three maps if and only if the key is reported already, its acknowledgement is pending, or its post is recorded and no copy is on its way |
| `DeliveryAck.RecordedPostMayWait` | internal/controller/applicationinstance_controller.go:455-464 | the last condition is needed: for every instance and key some run has the post recorded, nothing pending and another copy buffered |
| `DeliveryAck.ClaimedBeforeSent` | internal/controller/applicationinstance_controller.go:418-475 | in every run, whichever patches fail, a reconcile enqueues only with its own claim on the annotations it holds, and goes past its first checks only with no other claim left |
| `DeliveryAckInterleaved.AcknowledgementInterleaved` | internal/controller/applicationinstance_controller.go:428-464 | in one process lifetime with a fixed key and current reads, after any history and with all other steps interleaved at will and with any outcome: once the acknowledgement is pending or the post recorded, and a reconcile has made at most twelve steps with its calls succeeding, the key is reported |
| `DeliveryAckInterleaved.RotationForgetsPending` | internal/controller/applicationinstance_controller.go:696-698 | the fixed key is needed: for every instance and two keys some run has the acknowledgement of one pending, and one step of the callback for the other makes a reconcile whose calls succeed end without reporting it |
| `DeliveryOnce.OneOutstandingCopy` | internal/controller/applicationinstance_controller.go:428-491 | in one process lifetime after any history, with all steps of reconciles, flusher, other reporters and other instances interleaved at will and only misled looks at the marks excluded: at most one copy buffered or in flight, at most one accepted post, and none on its way after that, whichever ack patches fail |
| `DeliveryOnce.MisledSendsAgain` | internal/controller/applicationinstance_controller.go:440-491 | in every reachable state with a misled look, no copy buffered and no post known to the reconcile, a copy is in the flusher's hands or was accepted, and the rest of the reconcile sends another |
| `DeliveryOnce.GapSendsAgain` | internal/controller/applicationinstance_controller.go:440-491 | in every reachable gap, with the key never accepted and no copy buffered, a reconcile whose calls succeed puts a second copy on its way |
| `DeliveryOnce.ScheduledIsRun` | internal/controller/applicationinstance_controller.go:428-491 | the runs without misled looks are runs of the system |
| `DeliveryRace.SecondCopy` | internal/controller/applicationinstance_controller.go:418-450 | the acknowledgement overtakes a reconcile before its look at the in-flight mark: for every instance and key some run accepts the key and buffers another copy |
| `DeliveryRace.SecondCopyAtPosting` | internal/controller/applicationinstance_controller.go:440-453 | the same before its look at the posting mark |
| `DeliveryRace.LostMarkSendsTwice` | internal/controller/applicationinstance_controller.go:440-453 | a failed post returns to the buffer between the two looks, the in-flight mark is dropped, and after the next extraction two copies are on their way |
| `DeliveryRace.GapsSendTwice` | internal/agent/events.go:138-165 | both gaps are reached, between extraction and preparation and between a failed post and the requeue, and a reconcile begun in either puts two copies on their way |
| `DeliveryRace.StaleReadSendsAgain` | internal/controller/applicationinstance_controller.go:413-491 | a read that lags behind the acknowledgement sends an accepted event again |
| `DeliveryRace.RotationSendsTwice` | internal/controller/applicationinstance_controller.go:418-491 | credentials rotated away and back while a batch is being posted put two copies on their way |
| `DeliveryRace.RestartSendsAgain` | internal/controller/applicationinstance_controller.go:667-711 | a restart between a post and its acknowledgement sends an accepted event again |
| `StorageReconciler.ApplicationInstanceReconciler.constructor` | internal/controller/applicationinstance_controller.go:824-900 | the initial fields are the initial state of the transition system |
| `StorageReconciler.ApplicationInstanceReconciler.ReconcileManagedStorage` | internal/controller/applicationinstance_controller.go:380-492 | from the read of the instance to its end the reconcile takes exactly the scripted steps of the transition system |
| `StorageReconciler.ApplicationInstanceReconciler.CheckPendingAck` | internal/controller/applicationinstance_controller.go:428-438 | ends the reconcile exactly when the ack of this key is pending: if one of the three attempts goes through the key is reported and no map holds the instance, otherwise all marks stay; an ack of another key is forgotten and nothing else |
| `StorageReconciler.ApplicationInstanceReconciler.CheckInFlight` | internal/controller/applicationinstance_controller.go:440-453 | ends the reconcile exactly when this key is marked in flight and its event is buffered or marked as being posted; otherwise the mark is forgotten and nothing else |
| `StorageReconciler.ApplicationInstanceReconciler.SendIfDue` | internal/controller/applicationinstance_controller.go:455-491 | the event is enqueued and marked exactly when no copy is buffered, the copy in hand says neither posted nor reported, and the claim is held or succeeds; a recorded post is acknowledged instead; otherwise buffer and maps stay |
| `StorageReconciler.ApplicationInstanceReconciler.ReportReady` | internal/agent/reporter.go:123-133 | the buffer gets exactly the instance's event and the in-flight mark is set |
| `StorageReconciler.ApplicationInstanceReconciler.PatchClaim` | internal/controller/applicationinstance_controller.go:608-640 | dropping or setting the claim: success leaves exactly that change on the server and the copy in hand current |
| `StorageReconciler.ApplicationInstanceReconciler.RetryAck` | internal/controller/applicationinstance_controller.go:762-765 | a recorded post is marked as pending ack and acknowledged; if no attempt goes through the mark stays |
| `StorageReconciler.ApplicationInstanceReconciler.PatchManagedStorageAck` | internal/controller/applicationinstance_controller.go:786-818 | succeeds exactly when one of three attempts goes through, every earlier one having ended in a conflict; then the key is reported, claim and post are gone and no map remembers the instance; otherwise the maps stay |
| `StorageReconciler.ApplicationInstanceReconciler.PatchManagedStoragePosted` | internal/controller/applicationinstance_controller.go:767-784 | the posted annotation alone is patched; only success goes on to the reported one |
| `StorageReconciler.ApplicationInstanceReconciler.ClearStorageDeliveryState` | internal/controller/applicationinstance_controller.go:893-900 | all three marks of the instance are gone and no other |
| `StorageReconciler.ApplicationInstanceReconciler.PrepareManagedStoragePost` | internal/controller/applicationinstance_controller.go:643-652 | every managed-storage event of the batch is marked as being posted |
| `StorageReconciler.ApplicationInstanceReconciler.AbortManagedStoragePost` | internal/controller/applicationinstance_controller.go:655-664 | no posting mark of the batch is left |
| `StorageReconciler.ApplicationInstanceReconciler.AckManagedStorageDelivered` | internal/controller/applicationinstance_controller.go:667-711 | the callback takes the planned steps for every event of the batch in order |
| `StorageReconciler.ApplicationInstanceReconciler.AckEvent` | internal/controller/applicationinstance_controller.go:667-711 | one accepted event: when the post is recorded and the confirmation goes through the key is reported and nothing remembered; in every other case the ack is pending and the in-flight and posting marks are gone; a recorded post whose confirmation cannot be read stays on the instance; other kinds of event change nothing |
| `StorageReconciler.ApplicationInstanceReconciler.AckMarks` | internal/controller/applicationinstance_controller.go:696-698 | the pending ack is marked, the in-flight and posting marks are cleared |
| `StorageReconciler.ApplicationInstanceReconciler.Flush` | internal/agent/events.go:137-186 | a flush with its callbacks takes exactly the planned steps of the transition system; the batch is discarded without a client, put back after a failed post and ingested by the server exactly when the post arrived; an empty buffer is left alone |
| `StorageReconciler.ScriptedUnique` | internal/controller/applicationinstance_controller.go:380-492 | start and call outcomes determine the run of a reconcile or flush |
| `StorageReconciler.ReconcileSendsWhenDue` | internal/controller/applicationinstance_controller.go:413-491 | no stuck delivery, stated of the scripted run the imperative reconcile takes |
| `StorageReconciler.ReconcileAcknowledgesWhenDue` | internal/controller/applicationinstance_controller.go:413-491 | acknowledgement progress with its exact condition, stated of the scripted run the imperative reconcile takes |
| `Idempotency.IdempotencyStore.EnsureLoaded` | internal/agent/idempotency.go:68-104 | the cache is loaded once, from the trimmed non-blank keys of the ConfigMap; a failed read leaves it unloaded |
| `Idempotency.IdempotencyStore.Contains` | internal/agent/idempotency.go:35-47 | whether the trimmed key is cached, after loading |
| `Idempotency.IdempotencyStore.Record` | internal/agent/idempotency.go:50-66 | a blank or already cached key reports success without a write; a new one is cached and then persisted, and stays cached when persisting fails |
| `Idempotency.IdempotencyStore.Persist` | internal/agent/idempotency.go:106-133 | the ConfigMap lists the cached keys in some order, unless the write failed |
| `Idempotency.LoadRestores` | internal/agent/idempotency.go:68-133 | loading what was persisted gives the same set back, for every order of the keys |
| `Idempotency.RecordSound` | internal/agent/idempotency.go:50-66 | no persisted key is forgotten, the persisted keys stay within the cache, and success of a new key makes ConfigMap and cache equal |
| `Applier.JobApplier.ApplyJob` | internal/agent/applier.go:45-124 | changes the cluster exactly when the job has not expired, its kind is apply, delete or intent, and its trimmed key is blank or was read and not seen; succeeds exactly when moreover the dispatch succeeded and a non-blank key was written; answers Expired exactly past the expiry, with nothing changed |
| `Applier.ApplyExact` | internal/agent/applier.go:45-124 | the same of every outcome the specification allows, with the exact condition of a replay |
| `Applier.KeysAfterApply` | internal/agent/applier.go:118-122 | after a dispatch that succeeded a non-blank key is cached, and persisted with all known keys exactly when the write arrived; nothing else changes what is persisted |
| `Applier.FailedWriteReplays` | internal/agent/idempotency.go:50-66 | after a failed write the next attempt in the same process is a replay, although the key was not persisted and the job was answered with an error |
| `Applier.SuccessPersists` | internal/agent/applier.go:45-124 | success of a non-blank key means it is persisted and the ConfigMap equals the cache |
| `Applier.PersistedBlocks` | internal/agent/applier.go:45-124 | a job whose key is persisted changes nothing in the cluster and does not succeed |
| `Applier.AtMostOneSuccess` | internal/agent/applier.go:45-124 | in every serial run with crashes, restarts and failed or half-done writes, over whatever ConfigMap was there, a trimmed non-blank key succeeds at most once and afterwards never changes the cluster |
| `Applier.PersistedGrows` | internal/agent/idempotency.go:50-133 | the persisted key set never shrinks, across restarts too |
| `Applier.CacheCoversConfigMap` | internal/agent/idempotency.go:50-133 | in every run the persisted keys are within the loaded cache |
| `Applier.BlankKeysAreNotTracked` | internal/agent/applier.go:45-124 | a job with a blank key can succeed every time |
| `Conditions.SetInPlace` | internal/conditions/conditions.go:9-30 | an existing type is overwritten in place, a new one goes to the end of a longer list, equal content changes nothing |
| `Conditions.GetLoop` | internal/conditions/conditions.go:41-48 | the first condition of the type |
| `Conditions.IsTrueLoop` | internal/conditions/conditions.go:32-39 | whether the first condition of the type is True |
| `Conditions.ChangedConditions` | internal/agent/reporter.go:198-211 | the conditions that are new or differ in status, reason or message, in order |
| `Conditions.DiffExact` | internal/agent/reporter.go:198-211 | for all lists whatsoever the diff is exactly the conditions whose status, reason or message is not that of the last old condition of the type, each once and in order |
| `Conditions.SetStatus` | internal/conditions/conditions.go:9-30 | setting a condition changes the status of its own type only |
| `Conditions.SetGet` | internal/conditions/conditions.go:9-48 | a lookup after setting finds the condition with the new transition time, or the old one when only the time would change; other types are untouched |
| `Conditions.SetAllExtends` | internal/conditions/conditions.go:9-30 | any sequence of settings keeps types unique and loses none |
| `Conditions.DiffReplays` | internal/agent/reporter.go:198-211 | overlaying the reported diff on the old list gives type, status, reason and message of the new one, after any sequence of settings |
| `Registration.ClusterReconciler.ReconcileOnce` | internal/controller/cluster_controller.go:63-89 | registration, rotation and heartbeat, each only when the one before did not stop the reconcile |
| `Registration.ClusterReconciler.ReconcileRegistration` | internal/controller/cluster_controller.go:94-186 | the world after the registration path, for every outcome of its reads, exchange and writes |
| `Registration.ClusterReconciler.RegisterCluster` | internal/controller/cluster_controller.go:347-422 | exchange, persist, spec write, status write, with what each failure leaves behind; once the write of the Secret arrives it holds the called endpoint with the trimmed cluster ID and token of the answer, and is untouched otherwise |
| `Registration.ClusterReconciler.AdoptExistingRegistration` | internal/controller/cluster_controller.go:465-491 | the fingerprint and the consumed mark are recorded on a fresh copy, then the cluster is read again |
| `Registration.ClusterReconciler.RetryStatus` | internal/controller/cluster_controller.go:405-421 | the first try that does not conflict decides, within five |
| `Registration.ClusterReconciler.ReconcileRotation` | internal/controller/cluster_controller.go:189-210 | the world after the rotation path |
| `Registration.ClusterReconciler.RotateStored` | internal/controller/cluster_controller.go:295-340 | once the write of the Secret arrives it is the old base URL and cluster ID with the trimmed answered token, and is untouched otherwise; success means that the request is gone from the spec and nothing else of it changed |
| `Registration.ClusterReconciler.ReconcileHeartbeat` | internal/controller/cluster_controller.go:214-269 | the status written without a client, on a failed and on a good round trip |
| `RegistrationSafety.TokenNotSpentAgain` | internal/controller/cluster_controller.go:94-186 | every run without a re-registration request and with the Secret read that guards an exchange reliable: Register is called only while no complete credentials are stored, and afterwards never, nor does the registration path write Error, whatever writes conflict, fail or lose their reply; not even in the reconcile that stored them, if it can read them back |
| `RegistrationSafety.PersistedStatusesFine` | internal/controller/cluster_controller.go:99-421 | in every run, forced re-registration and unreadable Secrets included, every status ever persisted has a phase that its conditions bear out, and a fingerprint only with the consumed mark |
| `RegistrationSafety.LostRecordRecovered` | internal/controller/cluster_controller.go:134-186 | after any run, with credentials stored, a Secret-backed token and no pending re-registration request, the next reconcile without API faults records the token's fingerprint and consumed = true |
| `RegistrationSafety.RegisterCalledExactlyWhen` | internal/controller/cluster_controller.go:94-160 | a reconcile calls Register, with the resolved token, if and only if a token with an unrecorded fingerprint and an endpoint are there and no credentials load, or re-registration is requested |
| `RegistrationSafety.UnreadableGuardSpendsAgain` | internal/controller/cluster_controller.go:545-554 | stored credentials that cannot be read count as missing |
| `RegistrationRecord.ReconcileRecords` | internal/controller/cluster_controller.go:94-186 | the recorded fingerprint after a reconcile: that of the resolved token if an unrecorded one was resolved and the success or an adopting write got through, and otherwise the old one |
| `RegistrationRecord.RecordIsLast` | internal/controller/cluster_controller.go:94-186 | over every run the record is that of the last reconcile that wrote one |
| `RegistrationRecord.RecordedExactlyWhen` | internal/controller/cluster_controller.go:94-186 | from an unrecorded cluster a fingerprint is recorded if and only if some reconcile that resolved a token, from a current or an outdated copy, got its success or adopting write through |
| `RegistrationRecord.InlineRecordExactlyWhen` | internal/controller/cluster_controller.go:380-421 | once the spec has no token and none is put back, if and only if such a reconcile started from an outdated copy that still had it |
| `RegistrationRecord.InlineRecordStaysLost` | internal/controller/cluster_controller.go:380-395 | over every run without such a copy the record never changes |
| `RegistrationRecord.InlineRecordLost` | internal/controller/cluster_controller.go:380-421 | an inline token exchanged, stored and cleared, with no status write getting through, leaves complete credentials, no token and no record |
| `RegistrationRecord.InlineLossReachable` | internal/controller/cluster_controller.go:380-421 | one reconcile of a new cluster does so, and the record stays empty in every continuation without the token |
| `RegistrationRecord.StaleCopyMakesUp` | internal/controller/cluster_controller.go:134-144 | a reconcile from an outdated copy with the token finds the stored credentials and records it |
| `RegistrationRecord.StaleRecoveryReachable` | internal/controller/cluster_controller.go:134-144 | after the loss on a new cluster, a reconcile from the copy it started from does so |
| `RegistrationRecord.TokenSpentTwice` | internal/controller/cluster_controller.go:545-554 | a new cluster whose stored credentials cannot be read gives one token to Register twice |
| `RegistrationCredentials.TokenIsLastAnswer` | internal/controller/cluster_controller.go:295-372 | over every run the stored token is the trimmed answer of the last registration or rotation whose write of the Secret arrived, or what was stored at the start |
| `RegistrationCredentials.ClusterIsLastRegistered` | internal/controller/cluster_controller.go:318-372 | over every run the stored base URL and cluster ID are those of the last registration whose write arrived, whatever rotations came after |
| `RegistrationCredentials.RotationExact` | internal/controller/cluster_controller.go:189-330 | Secret and spec after a reconcile with nothing to register: replaced token and cleared request exactly when a rotation is asked for, the credentials load, a token is answered and the writes arrive |
| `RegistrationCredentials.ExchangeEnrolls` | internal/controller/cluster_controller.go:347-422 | an exchange without faults calls Register with the resolved token, stores its answer, fills in a blank cluster ID, clears the inline token and the request, and records fingerprint, consumed mark and Secret |
| `RegistrationCredentials.AdoptionExact` | internal/controller/cluster_controller.go:134-144 | with credentials stored, an unrecorded token is recorded without an exchange, and phase, conditions, spec and Secret stay |
| `RegistrationCredentials.RetryExact` | internal/controller/cluster_controller.go:405-421 | a retried write goes as the first of five tries that does not conflict, and is refused without one |
| `RegistrationCredentials.UnresolvedTokenWaits` | internal/controller/cluster_controller.go:94-130 | a token that cannot be resolved, with no credentials, ends Pending with nothing exchanged |
| `RegistrationCredentials.RefusedExchangeFails` | internal/controller/cluster_controller.go:165-176 | a refused exchange with no credentials ends in Error with the reason |
| `RegistrationCredentials.RefusedRotationFails` | internal/controller/cluster_controller.go:189-206 | a refused rotation ends in Error, with the credentials and the request kept |
| `RegistrationCredentials.HeartbeatDecides` | internal/controller/cluster_controller.go:214-269 | a registered cluster is Connected exactly when there is a client and its heartbeat succeeded, Disconnected when it failed, Pending without a client, and the Connected condition says so |
| `RegistrationCredentials.ConnectedSince` | internal/controller/cluster_controller.go:245-269 | in every run that becomes Connected, a reconcile with a client and a successful heartbeat made it so, and it has been Connected since |
| `RegistrationCredentials.OverflowTells` | internal/controller/cluster_controller.go:271-293 | the BufferOverflow condition follows the buffer, and no other condition changes with it |
| `Codec.Base64RoundTrip` | internal/operations/approvalclaim/claim.go:96-118 | unpadded base64url (sections 3.2 and 5 of RFC 4648) decodes what it encodes, and its text has no dot |
| `Codec.EncodedBits` | internal/operations/approvalclaim/claim.go:118 | three bytes become four letters with the same twenty-four bits, high bits first; of one or two bytes left over the missing bits are zero |
| `Codec.EscapedSafe` | internal/operations/approvalclaim/claim.go:131-165 | no control character, HTML character or line separator is left bare in a JSON string |
| `ApprovalClaim.WriteObject` | internal/operations/approvalclaim/claim.go:186-196 | the loop writes the members between braces, separated by commas |
| `ApprovalClaim.MarshalCanonicalPayload` | internal/operations/approvalclaim/claim.go:124-197 | the canonical JSON of the payload |
| `ApprovalClaim.CanonicalText` | internal/operations/approvalclaim/claim.go:124-197 | the canonical text in full: the six members in ascending order of their keys, without blanks |
| `ApprovalClaim.IssuedText` | internal/operations/approvalclaim/claim.go:109-121 | an issued claim in full: vws1, the encoded canonical payload, and the hexadecimal digest under the trimmed secret; none for a blank secret |
| `ApprovalClaim.ClaimRoundTrip` | internal/operations/approvalclaim/claim.go:46-121 | a claim issued under a non-blank secret, with a payload the decoder reads back, verifies exactly when the version is 1, the trimmed names agree and now is not past the expiry |
| `ApprovalClaim.VerifiedIsGenuine` | internal/operations/approvalclaim/claim.go:46-106 | Verify accepts exactly the claims of three parts with the prefix, the secret's digest of the body, and a decodable unexpired version-1 payload for the operation |
| `ApprovalClaim.AcceptedCarriesMac` | internal/operations/approvalclaim/claim.go:52-94 | the third part of an accepted claim decodes to the message authentication code of its second part |
| `ApprovalClaim.ReferenceDecoderFaithful` | internal/operations/approvalclaim/claim.go:96-106 | the canonical form determines the payload: a decoder exists that reads every one back |
| `Concurrency.InFlightLoop` | internal/operations/concurrency/concurrency.go:46-62 | in flight by phase, or by an Accepted condition that is True |
| `Concurrency.FindConflict` | internal/operations/concurrency/concurrency.go:71-91 | the first operation in the way; none if and only if no item of the listing is, and never when all are finished |
| `Concurrency.RivalExact` | internal/operations/concurrency/concurrency.go:32-91 | who is waited for, pair by pair: upgrades by upgrades, upgrades and backups by restores, restores by backups, while Pending, Running or accepted, of another name on the same target; a finished operation by nobody |
| `Concurrency.ListingDecides` | internal/operations/concurrency/concurrency.go:71-91 | whether a conflict is found does not depend on the order of the listing |
| `Approvals.BlockReasonExact` | internal/operations/approvals/approvals.go:30-88 | an operation is let through exactly when it is no Velero restore and its approvals do not ask for approval, or it carries a genuine, unexpired claim for its own name |
| `Operations.OperationReconciler.ReconcileOnce` | internal/controller/operation_controller.go:60-174 | the world after one reconcile, for every outcome of its reads, gates, engine calls and writes |
| `Operations.OperationReconciler.StartIfPending` | internal/controller/operation_controller.go:115-133 | Materialize and the running status, only from an unset or Pending phase |
| `Operations.OperationReconciler.BackfillEngineRefIfNeeded` | internal/controller/operation_controller.go:176-198 | a Running operation gets a missing start time and engine reference, and nothing is written otherwise |
| `Operations.OperationReconciler.WriteEngineStatus` | internal/controller/operation_controller.go:139-173 | the engine's report becomes the status |
| `Operations.OperationReconciler.HandleEngineStatusError` | internal/controller/operation_controller.go:200-221 | which engine errors fail the operation, wait, or are returned |
| `Operations.OperationReconciler.BlockOperation` | internal/controller/operation_controller.go:253-263 | Pending, Blocked and not Accepted with the reason |
| `Operations.OperationReconciler.FailOperation` | internal/controller/operation_controller.go:265-276 | Failed with the message and a finish time |
| `OperationsSafety.MutualExclusion` | internal/controller/operation_controller.go:98-173 | no reachable state has two upgrades, or a backup and a restore, of one target both Running |
| `OperationsSafety.NoWriteAgainstConflict` | internal/controller/operation_controller.go:98-173 | whenever a run writes a phase other than Pending, no conflicting operation on the target is Pending or Running |
| `OperationsSafety.NoRestoreBesideUpgrade` | internal/operations/concurrency/concurrency.go:32-43 | no run writes a restore as Running while an upgrade of its target is Pending or Running |
| `OperationsSafety.ApprovalGate` | internal/controller/operation_controller.go:92-119 | every Materialize, repeated ones included, of a Velero restore or of an operation whose approvals ask for approval happens with a genuine unexpired claim for its own name on it |
| `OperationsSafety.StartsOnlyWhenDue` | internal/controller/operation_controller.go:68-119 | in every run every Materialize is of an operation that was new or Pending, adopted and not being deleted, with none in the way |
| `OperationsStatus.PersistedConsistent` | internal/controller/operation_controller.go:115-276 | in every persisted status condition types are unique, Accepted and Blocked are opposites once set, an accepted operation has a start time and engine reference, and exactly those with a finish time say Failed or Succeeded |
| `OperationsLife.StartsExactlyWhen` | internal/controller/operation_controller.go:80-119 | a reconcile materializes if and only if the operation is unstarted, valid, its target and engine are there, none is in the way, and, for a Velero restore or when its approvals ask for it, a genuine claim is on it; and then once |
| `OperationsLife.StartsUnapprovedBesideFinished` | internal/controller/operation_controller.go:92-119 | in every run an operation that is neither starts without any claim, and finished operations on its target hold up nobody |
| `OperationsLife.StartIsRecorded` | internal/controller/operation_controller.go:115-173 | such a start ends up Running, Accepted, unblocked, with its start time |
| `OperationsLife.FinishIsRecorded` | internal/controller/operation_controller.go:144-166 | an engine that reports the end leaves its phase, Failed or Succeeded True as it says, Running False, a finish time and its outputs |
| `OperationsLife.BlockTellsWhy` | internal/controller/operation_controller.go:80-106 | an operation not let through is Pending, Blocked and not Accepted, both conditions carry the reason of the first gate that stops it, and nothing else of its status changes |
| `OperationsLife.PhaseKeptExactlyWhen` | internal/controller/operation_controller.go:80-173 | a started or finished operation keeps its phase if and only if it is valid, target and engine are there and nothing conflicts; otherwise it goes back to Pending |
| `OperationsLife.MissingWorkloadGrace` | internal/controller/operation_controller.go:200-221 | with its workload missing an operation fails if and only if it is not Running or started at least sixty seconds ago |
| `OperationsOutcome.FailedMaterializeFails` | internal/controller/operation_controller.go:115-120 | a failed Materialize ends the operation as Failed with the message and a finish time, nothing else changed |
| `OperationsOutcome.StartIsWritten` | internal/controller/operation_controller.go:121-133 | what a start writes: Accepted, Running and unblocked with their reasons, phase, start time and engine reference; finish time and outputs stay |
| `OperationsOutcome.StartIsBackfilled` | internal/controller/operation_controller.go:176-198 | whatever the engine says, a Running operation without a start time gets one, and one of a Job, Workflow or HelmHookJob engine its reference; neither changes otherwise |
| `OperationsOutcome.EngineErrors` | internal/controller/operation_controller.go:200-221 | foreign or ambiguous workloads fail the operation with the message; an unexplained error changes nothing |
| `OperationsOutcome.ProgressIsWritten` | internal/controller/operation_controller.go:167-172 | a report of progress becomes the phase and nothing else |
| `OperationsOutcome.EndIsWritten` | internal/controller/operation_controller.go:144-166 | a report of the end becomes phase, finish time, outcome with the engine's reason and message, and outputs, which stay when none are reported |
| `OperationsOutcome.AdoptionAndDeletion` | internal/controller/operation_controller.go:68-241 | an operation not yet adopted only gets its finalizer; one being deleted goes exactly when its engine has cancelled and the finalizer can be removed |
| `OperationsOutcome.FailedReadsChangeNothing` | internal/controller/operation_controller.go:62-105 | a failed read of the operation, of its target or of the listing changes nothing |
| `OperationsOutcome.BlockMessage` | internal/controller/operation_controller.go:253-263 | both conditions of a block carry one message, which names an operation in the way when there is one |
| `OperationsLife.StuckForever` | internal/operations/concurrency/concurrency.go:46-62 | two pending operations that exclude each other stay Pending and unstarted in every run that deletes neither |
| `OperationsLife.NewcomerStopsBoth` | internal/controller/operation_controller.go:98-102 | while one is Running, a reconcile of any operation that excludes it, and then its own, make both Pending for good |
| `OperationsRuns.DeadlockReachable` | internal/controller/operation_controller.go:98-102 | two upgrades created on one target reach that deadlock without any fault |
| `OperationsLife.UpgradeJoinsRestore` | internal/operations/concurrency/concurrency.go:32-43 | an otherwise clear upgrade starts beside a running restore, which then goes back to Pending |
| `OperationsRuns.UpgradeBesideRestoreReachable` | internal/operations/concurrency/concurrency.go:32-43 | an approved restore and an upgrade created on one target are both Running in a run without faults, and the restore's next reconcile makes it Pending |
| `S3Credentials.FilterMatching` | internal/seaweedengine/credentials.go:126-142 | exactly the listed credentials of the release |
| `S3Credentials.SortByName` | internal/seaweedengine/credentials.go:143-146 | a permutation, ascending by name when names are distinct |
| `S3Credentials.LessExact` | internal/seaweedengine/credentials.go:143-145 | names are compared at their first difference, a proper prefix coming first |
| `S3Credentials.SplitByPhase` | internal/seaweedengine/credentials.go:109-124 | the Ready ones in order, and whether any is neither Ready nor Failed |
| `S3Credentials.ScanReady` | internal/seaweedengine/credentials.go:75-98 | the first usable or unreadable credential decides; without one, pending and failed by what was seen |
| `S3Credentials.SnapshotExact` | internal/seaweedengine/credentials.go:149-190 | usable exactly when the Secret of status or spec is there and holds what is needed; the status's access key wins, the fields default, and the bucket is the release |
| `S3Credentials.ResolveManagedStorageState` | internal/seaweedengine/credentials.go:55-99 | with distinct names the result is the one an order-free description selects |
| `S3Credentials.OrderIndependent` | internal/seaweedengine/credentials.go:126-147 | every permutation of a listing gives the same result, with unreadable Secrets too |
| `S3Credentials.ExactlyOne` | internal/seaweedengine/credentials.go:55-190 | when some credential matches and Secrets are readable, exactly one of snapshot, pending and failed holds, and a snapshot is that of the smallest-named usable Ready credential |

## Left out

- Endpoints and ManagedStorageFailed deliveries: their retry markers carry no key, so the acknowledgement law does not hold for them; only their event keys are modelled.
- The ack-retry annotation and requeue intervals: they only decide when the next reconcile runs, and every schedule is covered.
- The reporter without a buffer and the applier without an idempotency store: both switch the protocol off.
- HTTP and registration clients, the Kubernetes client, metrics, logging, command line and manager wiring: each call is a step that succeeds or fails.
- Engine bodies (Velero, Helm, Job, Workflow), Flux and Seaweed object construction: an engine is an arbitrary answer to Materialize, Status and Cancel.
- What an engine reference and an applied reference hold: only whether they are there matters to the protocols.
- Spec validation, parameter schemas, templates beyond which one requires approval, and admission webhooks: single-branch checks.
- Forced re-registration: the runs of TokenNotSpentAgain leave it out, because it spends a token on purpose; the other registration results include it.
- Cluster deletion, and the agent's reload of credentials, which compares only the cluster ID.
- General JSON decoding: Go's decoder is a parameter, and for a payload it does not read back nothing is claimed; its laxer inputs only matter to claims that carry a valid digest.
- 64-bit wrap-around of the overflow counter and of claim integers: the model's integers are unbounded.
- Batcher.EventBatcher.Flush: a whole flush with nothing in between; its interleavings are those of BatcherRuns and Delivery.
- StorageReconciler.ApplicationInstanceReconciler.ReconcileManagedStorage: one reconcile on its own with current reads; interleavings and stale reads are those of Delivery, whose steps it takes.
- Operations.OperationReconciler.ReconcileOnce: the library call that reports condition transitions is left out; Conditions.DiffReplays is about what it sends.
