# Verified model of the apipi service core

apipi runs agent sessions on workers behind a replicated API. This project models, in Dafny, the parts of the API
whose correctness rests on state kept over unbounded runs, and proves what they promise:

- **Durable ingest** (`IngestStore`, `Ingest`, `IngestBatcher`, and the laws in `IngestLaws`, `IngestEffects`,
  `IngestBatches`, `IngestTurns`, `IngestExports`, `Delivery`, `Protocol`, `ProtocolGuarantees`, `ProtocolProgress`,
  `TurnRecovery`). Workers number their envelopes per session and keep them until a cumulative ack. The API applies a
  batch in one transaction with a savepoint per envelope; a ledger row per `(session, seq)` drops replays; a transient
  failure stalls only its own session. `IngestStore` is the meaning of a batch as functions of values, `Ingest` the
  code that changes rows, caches and lists in place, proved equal to it; `IngestEffects` tells, kind by kind and
  without naming that meaning, when an envelope is applied, what the store then holds and why it is refused else;
  `Protocol` is the whole loop over outbox, socket, store and acks, with rollback, reconnect, replay, worker restart
  and takeover as steps.
- **Lifecycle reconciliation** (`LifecycleLog`, `Lifecycle`, and `LifecycleLaws`, `LifecycleReadings`,
  `LifecycleSteps`, `LifecycleHeartbeats`, `LifecycleGuarantees`, `LifecycleInversion`): live intervals rebuilt from a
  lossy, duplicated, reordered log.
- **The event bus** (`NotifyBatches`, `EventBus`, `EventBusLive`, `EventBusDelivery`, `EventBusInPlace`): greedy
  packing under the NOTIFY limit, and fan-out over N replicas with listeners that come and go and flushes that fail
  part way.
- **Authentication** (`AuthCache`, `SingleFlight`): the LRU and TTL cache against a plain map that never forgets, and
  one authenticate call per key in every interleaving.
- **Smaller pieces**: attachment names and paths (`AttachmentNames`, `Attachments`), agent bundles (`Bundles`,
  `BundleReferences`, `BundlesInPlace`) and the sandbox status machine (`SandboxStatus`, `SandboxHistory`). `Common`,
  `Json` and `Decimal` are shared vocabulary.

Code that works by changing things in place is a class or a method here, and each such method is proved equal to a
specification function; the laws are lemmas about those functions, stated over the inputs and the steps.

What the proofs brought to light, each with a lemma below:

- A `turn.status` whose header names the running turn and whose payload names another starts a second running turn:
  validation reads the header, applying reads the payload. Nothing else does
  (`IngestTurns.KeepsOneRunningTurnUnless`).
- When a savepoint is undone only the wakes are trimmed. A lifecycle intent appended before its savepoint failed to
  release stays, and the retry appends it again (`IngestExports.FailedReleaseExportsTwice`).
- `AuthCache.invalidate_where` deletes an expired entry from the dictionary it is walking. The walk then raises unless
  that entry was the last, and the identities it was asked to take back stay (`AuthCache.ScanRaisesIff`).
- `turn_logs` holds one row per turn. A usage report that is applied while its turn still runs makes every later
  `fail_stale_in_progress` raise: recovery never ends that turn (`TurnRecovery.EarlyLogBlocksRecovery`). No other
  envelope does that (`TurnRecovery.KeepsLogsClosedUnless`).
- Which boot `reconcile` takes for the replaced one depends on the order in which the boots are first seen: turning
  two start events round closes the other boot (`LifecycleLaws.ReorderingEndsTheOtherBoot`).
- The docstring of `split_notify_batches` allows a batch of exactly `limit` bytes; the loop stops one byte earlier
  (`NotifyBatches.Fits` asks for less than the limit, and the batches are fewest under that test).

## Model

| member | source | states |
|---|---|---|
| IngestLaws.OnlyAClaimWrites | src/apipi/services/ingest.py:1052-1114 | claim, validation and apply stand or fall together: an envelope changes the store if and only if it adds its own, new ledger row; only a repeated presign may write without one |
| IngestLaws.WakesMirrorStore | src/apipi/services/ingest.py:1035-1123 | for any batch the wakes of a session are exactly the events appended to its log, in append order and with their numbers |
| IngestEffects.StartedDoes | src/apipi/services/ingest.py:351-357 | a `started` is applied exactly when it is new, leased, fault-free, no other turn than the one it names runs and its turn is none or the session's; an unknown turn is then stored running, with a stamp after every turn of the session; else the reason |
| IngestEffects.EndedDoes | src/apipi/services/ingest.py:503-524 | an ending is applied exactly when the turn it names is the latest and its own is the session's; that turn is then over with that outcome; else mismatch or unknown turn |
| IngestEffects.ItemAddedDoes | src/apipi/services/ingest.py:358-366 | an added item is applied exactly when a turn runs and is the one named, its raw turn id is none or a UUID and the item id is new or of the session's tenant; the item the store then holds, and the reason else |
| IngestEffects.ItemDoneDoes | src/apipi/services/ingest.py:549-569 | a finished item is applied exactly when the turn named is the latest, the item is the session's and its turn does not disagree; its data is then merged, and the reason else |
| IngestEffects.UsageDoes | src/apipi/services/ingest.py:570-620 | usage is applied exactly when its turn is the latest named, the session's and without a log row, and its status closes; the five floored counts then stand on the turn and in its log row, and the reason else |
| IngestEffects.EventReportDoes | src/apipi/services/ingest.py:621-636 | an event is stored and woken for exactly when its type is public and a turn it names is the latest, and the reason else |
| IngestEffects.ErrorReportDoes | src/apipi/services/ingest.py:782-799 | an error is stored as an event with its message and code, `internal` for none, exactly when a turn it names is the latest |
| IngestEffects.SessionStatusDoes | src/apipi/services/ingest.py:637-644 | the status and the required actions it gives, and only these, reach the session row, exactly when it gives one and a turn it names is the latest |
| IngestEffects.SandboxReportDoes | src/apipi/services/ingest.py:449-466 | a hosted session's row and event are those of the status machine, another session's stay; an unknown phase is invalid |
| IngestEffects.ReceiptsDo | src/apipi/services/ingest.py:467-502 | a stop and the two lifecycle envelopes change no row but the ledger and append to the outcome what they tell |
| IngestEffects.ArtifactDoes | src/apipi/services/ingest.py:645-781 | artifact work writes and replies as its answer says; a malformed one is invalid |
| IngestEffects.KnownIsSkipped | src/apipi/services/ingest.py:1093-1115 | an envelope with a ledger row changes nothing; a presign is answered again, a stop is noted again |
| IngestEffects.UnheededIsRefused | src/apipi/services/ingest.py:1036-1051 | an unleased, oversized or unknown session's envelope is refused before anything else, with its reason |
| IngestEffects.LateFailures | src/apipi/services/ingest.py:1115-1142 | a failure while writing or at the release undoes the store and drops the wakes, keeps what else was appended, and is tried again exactly if it is transient |
| IngestEffects.BatchTells | src/apipi/services/ingest.py:1124-1163 | the lists, rejections and acks of a batch are those of its envelopes one after the other |
| IngestBatches.FlushSplits | src/apipi/services/ingest.py:999-1187 | after a part that stalls nothing, a batch is the first part then the second: same store, results concatenated, acks merged by maximum |
| IngestBatches.NoTransientNoStall | src/apipi/services/ingest.py:1124-1142 | without transient faults nothing stalls and nothing is put in retry |
| IngestBatches.BatchingRefinesOneByOne | src/apipi/services/ingest.py:999-1187 | a batch that stalls nothing has the store and the outcome of its envelopes in batches of one |
| IngestBatches.StallsLeaveNoTrace | src/apipi/services/ingest.py:1024-1028 | what a batch settles it settles as if the envelopes put in retry had never come |
| IngestBatches.FlushIsOneByOne | src/apipi/services/ingest.py:999-1187 | any batch, stalls or not, leaves the store, acks, rejections and wakes of its settled envelopes ingested one at a time |
| IngestBatches.SettlesAPrefix | src/apipi/services/ingest.py:1024-1028 | with ascending numbers a batch settles a prefix of each session and holds the rest |
| IngestBatches.AckCoversTheSettled | src/apipi/services/ingest.py:1124-1174 | an ack covers exactly the settled prefix, stays below all of retry, and the stored cursor rises to it and never falls |
| IngestBatches.CursorsCompose | src/apipi/services/ingest.py:1165-1174 | moving the cursors to two sets of acks one after the other is moving them to their maximum |
| Delivery.AppliedAtMostOnce | src/apipi/services/ingest.py:375-385 | in any history of deliveries an envelope is applied at most once, and its ledger row tells whether it was |
| Delivery.OnlyApplicationsLeaveATrace | src/apipi/services/ingest.py:1052-1123 | a settled envelope that was not applied leaves the store untouched, a repeated presign aside |
| Delivery.BatchExtendsHistory | src/apipi/services/ingest.py:999-1187 | a batch extends a history of single deliveries by what it settled, whatever it stalled |
| ProtocolGuarantees.NothingIsLost | src/apipi/worker/outbox.py:189-201 | in every run, with rollbacks, reconnects, replays, restarts and takeovers, an envelope the worker may drop or a stored cursor steps over was itself applied, rejected or taken as a receipt |
| ProtocolGuarantees.StoreIsReplayOfTheLog | src/apipi/services/ingest.py:1-14 | in every run the store is the replay, one by one, of the settled envelopes, none of them applied twice, and the ledger holds exactly the applied ones |
| ProtocolGuarantees.SkippedOnlyIfApplied | src/apipi/worker/outbox.py:189-201 | in every run the ledger rows of a session lie at or below its stored cursor, so numbering that goes on after the cursor meets none; an envelope is skipped only if that very envelope was applied before, whichever worker sent it |
| ProtocolGuarantees.ExactlyOnceInOrder | src/apipi/protocol/handshake.py:114-123 | for a session leased to the worker at hand whenever a batch is settled or a hello answered, with commits reported, the settled envelopes are the issued ones up to the cursor, once each and in order, and the wire carries the ones behind it; leases may move and workers restart in between |
| ProtocolGuarantees.UnreportedCommitSettlesTwice | src/apipi/workerhub/serve.py:673-712 | the condition on commits is needed: a commit taken for a failure is tried again and settles its envelope twice |
| ProtocolProgress.EverythingGetsThrough | src/apipi/worker/outbox.py:351-384 | from every state of every run in which the session is leased to the worker, a reconnect that names it, the envelopes it still holds, one batch without transient faults and its ack empty the outbox and bring the cursor to the end of the line |
| IngestTurns.KeepsOneRunningTurnUnless | src/apipi/services/ingest.py:351-366 | one running turn per session, the newest: kept by an envelope if and only if it is no `started` that reaches apply with the running turn in its header and another in its payload; a turn that is over stays over |
| IngestTurns.DisagreeingHeaderStartsTwo | src/apipi/services/ingest.py:351-357 | a concrete envelope that leaves two turns running |
| IngestTurns.BatchKeepsOneRunningTurn | src/apipi/services/ingest.py:503-524 | whole batches of agreeing envelopes keep the invariant |
| IngestTurns.OnlyTurnStatusMovesReads | src/apipi/services/ingest.py:234-241 | only an applied `turn.status` changes what the latest-turn and running-turn reads of its session return, and none changes another session's |
| IngestExports.ExportsCounted | src/apipi/services/ingest.py:483-502 | a batch exports its applied lifecycle envelopes, and one more for every new lifecycle envelope of a leased session, not oversized, whose savepoint meets a fault at its release |
| IngestExports.ExportsExactIffReleasesHold | src/apipi/services/ingest.py:1115-1125 | the exports are exact if and only if the batch holds no such envelope |
| IngestExports.FailedReleaseExportsTwice | src/apipi/services/ingest.py:1124-1142 | a failed release and its retry export one start twice, from any store that leases the session |
| Ingest.ClaimRow | src/apipi/services/ingest.py:375-385 | inserts the ledger row, or reports a duplicate or a fault, as the specification says |
| Ingest.TurnCache.RunningId | src/apipi/services/ingest.py:245-270 | the cached read equals a fresh read |
| Ingest.TurnCache.LatestId | src/apipi/services/ingest.py:256-282 | the cached read equals a fresh read |
| Ingest.ValidateEnvelope | src/apipi/services/ingest.py:289-372 | the reason of refusal, through the cache, is the one the specification gives for the store itself; `IngestEffects` pins that reason for each kind of envelope |
| Ingest.ApplyTurnStatus | src/apipi/services/ingest.py:503-524 | the turn row and the cache change together: coherent after it, and equal to the specification |
| Ingest.ApplyItem | src/apipi/services/ingest.py:525-569 | adding and finishing items in place equals the specification, malformed turn ids included |
| Ingest.ApplyUsage | src/apipi/services/ingest.py:570-620 | the five counts, floored at zero, reach the turn and its log row together; an unknown turn is refused, a second log row or an unknown closing status raises |
| Ingest.ApplyEnvelope | src/apipi/services/ingest.py:417-799 | every branch, in place, equals the specification and keeps the cache coherent |
| Ingest.ApplySandboxReport | src/apipi/services/ingest.py:449-466 | the sandbox branch, its row, and the event with its body equal the specification |
| Ingest.ApplyArtifactWork | src/apipi/services/ingest.py:645-781 | presign and completion, as their answers say, equal the specification |
| Ingest.DeliverInSavepoint | src/apipi/services/ingest.py:1060-1088 | claim, validate and apply in one savepoint: on any exception the store is what it was |
| Ingest.RedeliverDuplicate | src/apipi/services/ingest.py:1093-1115 | a duplicate presign runs again in a savepoint of its own; other duplicates change nothing |
| Ingest.Handle | src/apipi/services/ingest.py:1036-1163 | the loop body gives the verdict of the specification: receipt, refusal, applied, skipped, stalled |
| Ingest.FlushBatch | src/apipi/services/ingest.py:999-1187 | the whole loop equals the specification; the turn cache agrees with fresh reads between any two envelopes, undone savepoints included; without a commit the store is unchanged; what each envelope then does is in `IngestEffects` |
| Ingest.WriteCursors | src/apipi/services/ingest.py:1165-1174 | cursors of leased rows rise to the acks, in place |
| IngestBatcher.Batcher.PollTimeout | src/apipi/services/ingest.py:195-199 | waits for ever exactly when nothing is queued; else the wait and the time gone make the window, and there is none once the window is over |
| IngestBatcher.Batcher.Take | src/apipi/services/ingest.py:204-208 | hands out everything queued and starts afresh |
| IngestBatcher.RunIngest | src/apipi/workerhub/serve.py:624-653 | whatever arrives, batches and queue are the envelopes in arrival order, every batch is within the limits but for its last item, a lease release is handled after all that arrived before it, and the loop is the function the next three rows are about |
| IngestBatcher.ControlsAreHandled | src/apipi/workerhub/serve.py:636-644 | every control message is handled, once and in order |
| IngestBatcher.QueueWaitsOnlyInTheWindow | src/apipi/workerhub/serve.py:624-653 | what is still queued is within the limits, came within the window of its first envelope, and no release or timeout has come since |
| IngestBatcher.FlushesAreDue | src/apipi/workerhub/serve.py:645-653 | each batch was over a limit, spanned the window, or was asked for by a release or timeout that came next |
| TurnRecovery.DbSession.FailStaleInProgress | src/apipi/services/turn_state.py:35-68 | the reverse loop over turns in place equals the specification, and raises if and only if the running turn has a log row |
| TurnRecovery.DbSession.FailTurnInDb | src/apipi/services/turn_state.py:71-118 | one turn fails and is logged, the events that tell it carry their bodies, and the session goes idle; it raises if and only if the turn was logged before |
| TurnRecovery.RecoveryTells | src/apipi/services/turn_state.py:71-118 | a session that waits for a turn under no live lease gains the failed turn, the error and the idle status in its log, with these bodies and in this order, or idle alone when no turn runs; any other, and one whose running turn is logged, stays as it is; other logs never change |
| TurnRecovery.RecoveryEndsAllIffOne | src/apipi/services/turn_state.py:35-68 | it leaves no turn running if and only if at most one was and that one has no log row |
| TurnRecovery.RecoveryIsComplete | src/apipi/services/turn_state.py:35-68 | in a sound store nothing runs after it if and only if the running turn has no log row, and a second call at any time changes nothing |
| TurnRecovery.EarlyLogBlocksRecovery | src/apipi/services/turn_log.py:196-230 | a usage report applied while its turn still runs leaves that turn running through every later recovery |
| TurnRecovery.KeepsLogsClosedUnless | src/apipi/store/models.py:307-331 | only turns that are over have a log row: kept by an envelope if and only if it is no such usage report |
| TurnRecovery.RecoveryEndsWhereLogsAreClosed | src/apipi/services/turn_state.py:71-118 | where only ended turns are logged, recovery ends what runs, and it stays so |
| TurnRecovery.EveryRunKeepsOneRunningTurn | src/apipi/services/ingest.py:351-366 | over any run of batches, recoveries and lease changes at most one turn runs per session, the newest, and ended turns stay ended |
| Lifecycle.Reconcile | src/apipi/services/lifecycle_export.py:457-615 | the loops with their tables return exactly what the specification returns; `LifecycleReadings`, `LifecycleSteps` and `LifecycleGuarantees` state that over the events |
| Lifecycle.DropRepeats | src/apipi/services/lifecycle_export.py:463-471 | the seen-set keeps the first event of each id |
| Lifecycle.GroupByBoot | src/apipi/services/lifecycle_export.py:472-481 | boots in first-seen order, each with its events in order |
| Lifecycle.TakeEvent | src/apipi/services/lifecycle_export.py:505-577 | one event changes the tables as the four-way state machine says; `LifecycleSteps` and `LifecycleReadings.TablesAreRead` tell what that is |
| Lifecycle.CloseUnlisted | src/apipi/services/lifecycle_export.py:569-577 | popping while walking a snapshot removes and records exactly the unlisted intervals, in order |
| Lifecycle.CloseReplacedBoots | src/apipi/services/lifecycle_export.py:578-602 | the loop with its two tables closes what the specification closes |
| Lifecycle.CloseSilentBoots | src/apipi/services/lifecycle_export.py:603-614 | the loop closes the boots silent too long |
| LifecycleLaws.RowsAreTheBootInOrder | src/apipi/services/lifecycle_export.py:463-504 | each boot is folded over its events, each once, in sequence order |
| LifecycleReadings.RowsAreTheCounted | src/apipi/services/lifecycle_export.py:463-504 | of any log, with or without ids: the rows of a boot are its events no earlier event shares the id of, each once, by number and then by arrival |
| LifecycleReadings.BootsAsSeen | src/apipi/services/lifecycle_export.py:472-481 | the boots are those such events name, each once, by the first such event |
| LifecycleReadings.TablesAreRead | src/apipi/services/lifecycle_export.py:504-546 | after the fold the worker, instance, last moment, last heartbeat and interval of each boot are those the last of its rows to carry one carries, whatever other boots say |
| LifecycleSteps.StartOpens | src/apipi/services/lifecycle_export.py:518-526 | a start opens its own interval in place of one under its number, and nothing else changes |
| LifecycleSteps.StopEnds | src/apipi/services/lifecycle_export.py:527-539 | a stop ends exactly the interval under its number, with one record of its moment, reason and duration if it is dated |
| LifecycleSteps.HeartbeatSettles | src/apipi/services/lifecycle_export.py:540-578 | a heartbeat leaves open exactly what it lists, marked with its moment, and the first entry of each unknown number; each other interval of the boot ends in one `lost` record, dated by when its number was last listed |
| LifecycleLaws.ShufflesFoldAlike | src/apipi/services/lifecycle_export.py:463-504 | any shuffle and any duplication of a log is folded over the same rows |
| LifecycleLaws.ShufflesReconcileAlike | src/apipi/services/lifecycle_export.py:457-615 | any number of boots: a shuffle and duplication that keeps the first-seen order of the boots reconciles to the same books |
| LifecycleLaws.ReorderingEndsTheOtherBoot | src/apipi/services/lifecycle_export.py:578-602 | that order matters: two start events of one worker, turned round, close the other boot |
| LifecycleInversion.ReconcileInvertsEmitter | src/apipi/services/lifecycle_export.py:457-615 | from any shuffle and duplication of one boot's log: exactly the stopped sessions in stop order with start, reason and duration, then, if and only if the last heartbeat is stale, the sessions still live |
| LifecycleInversion.LifecycleEmitter.Emit | src/apipi/services/lifecycle_export.py:111-198 | numbers are consecutive; a full queue drops the event, never its number; what is queued is in order |
| LifecycleInversion.EmittedIsIdentified | src/apipi/services/lifecycle_export.py:179-197 | emitted events have ids and sequence numbers of their own |
| LifecycleHeartbeats.HeartbeatLeavesTheListed | src/apipi/services/lifecycle_export.py:540-578 | after a heartbeat the boot's open intervals are among those listed; a listed session is open if and only if it holds its number; other boots are untouched |
| LifecycleHeartbeats.StepKeepsKeys | src/apipi/services/lifecycle_export.py:484-577 | the open table keeps one interval per boot and start number |
| LifecycleGuarantees.ReplacedAndSilentBootsEnd | src/apipi/services/lifecycle_export.py:482-614 | on return an interval is open if and only if the fold left it open and no later boot says its boot's worker or instance and its boot did not fall silent; every other one is in one `worker_lost` record dated by its boot's last sign. Names, signs and intervals are the last the boot's rows carry |
| LifecycleGuarantees.ReplacingTheLatest | src/apipi/services/lifecycle_export.py:578-602 | closing the last boot of each name in turn closes every replaced boot |
| LifecycleGuarantees.EveryRecordHasASource | src/apipi/services/lifecycle_export.py:482-614 | every record and open interval was opened by a start event or heartbeat entry of its boot with that session, number and start, and every close is dated by one of the boot's events |
| NotifyBatches.SplitNotifyBatches | src/apipi/services/event_bus.py:67-88 | the batches concatenate to the items, none is empty, one of several items encodes below the limit, and none had room for the next item |
| NotifyBatches.FullBatchesAreFewest | src/apipi/services/event_bus.py:67-88 | no contiguous split that fits uses fewer batches |
| NotifyBatches.FullBatchesAreUnique | src/apipi/services/event_bus.py:67-88 | these properties determine the batches |
| EventBus.NoQueueIsToldTwice | src/apipi/services/event_bus.py:159-192 | for any number of replicas and any run, a queue gets a stored event, as body or as wake, at most as often as it was published |
| EventBusDelivery.SubscribedUntilUnsubscribed | src/apipi/common/event_bus.py:113-127 | in every run a queue is on its session's list exactly from its opening until it is taken away |
| EventBusDelivery.QueueHoldsWhatItWasTold | src/apipi/services/event_bus.py:313-342 | in every run a queue holds, in order, exactly what was published on its replica for its session and what the listener took from the others, while it was subscribed |
| EventBusDelivery.WakesWaitUntilSent | src/apipi/services/event_bus.py:159-183 | in every run a replica owes one wake per publish until it is sent |
| EventBusDelivery.PublishedReachesTheOthers | src/apipi/services/event_bus.py:159-183 | from any state: once its wake is sent, a stored event is with every subscriber on every other replica that listens, behind what was on its way |
| EventBusDelivery.FlushReachesTheOthers | src/apipi/services/event_bus.py:380-405 | from any state: a flush whose calls go through brings all that was buffered, in order, to every subscriber on every other replica that listens |
| EventBusLive.LiveArrivesInOrder | src/apipi/services/event_bus.py:313-342 | one publisher's deltas reach a queue of their session in published order without repeats, however flushes fail and listeners come and go, and nothing of another session does |
| EventBusLive.NothingIsLostAtHome | src/apipi/common/event_bus.py:113-131 | a subscriber on the publisher's replica has every delta since it subscribed, in order |
| EventBusLive.FlowsNext | src/apipi/services/event_bus.py:380-405 | every step keeps what was got and what is on its way in order |
| EventBusInPlace.LocalFanout.Subscribe | src/apipi/common/event_bus.py:113-116 | a fresh empty queue joins the session's list at the end |
| EventBusInPlace.LocalFanout.Unsubscribe | src/apipi/common/event_bus.py:118-127 | that queue leaves, others stay, and no empty list is kept |
| EventBusInPlace.LocalFanout.Dispatch | src/apipi/common/event_bus.py:129-131 | every queue of the session gets the message once, no other queue changes |
| EventBusInPlace.PostgresEventBus.Notify | src/apipi/services/event_bus.py:260-288 | skipped exactly during the backoff or over the limit; an error starts the backoff |
| EventBusInPlace.PostgresEventBus.PublishEvent | src/apipi/services/event_bus.py:159-183 | the body goes to the subscribers here; one wake goes to the others unless the bus cannot start, backs off, is over the limit or the server refuses |
| EventBusInPlace.PostgresEventBus.PublishLive | src/apipi/services/event_bus.py:159-192 | the delta goes to the subscribers here and to the end of its session's buffer, also after a failed start; only a bus that is not running inside its backoff skips the buffer |
| EventBusInPlace.PostgresEventBus.FlushSession | src/apipi/services/event_bus.py:388-405 | batch by batch: skipped exactly inside the backoff or over the limit, else met as its call is; what the server took goes out in order until a call raises, which starts the backoff |
| EventBusInPlace.PostgresEventBus.FlushLiveOnce | src/apipi/services/event_bus.py:380-405 | the buffers are taken over and emptied at once; session after session is sent so, each under the backoff the one before left |
| EventBusInPlace.PostgresEventBus.EverythingGoesOut | src/apipi/services/event_bus.py:380-405 | past the backoff, with payloads in the limit and calls answered, all batches of all sessions go out in order |
| EventBusInPlace.PostgresEventBus.OnNotify | src/apipi/services/event_bus.py:313-342 | its own notes are skipped; others reach every subscriber of the session once, in batch order |
| AuthCache.CacheIsAPlainMap | src/apipi/gateway/auth.py:75-140 | over every run with a clock that does not run backwards: `get` answers only the last value put, not taken back, younger than the TTL; it does answer it unless `max` other keys were put or hit since; the size never exceeds the maximum |
| AuthCache.ScanRaisesIff | src/apipi/gateway/auth.py:115-135 | `invalidate_where` raises if and only if an expired identity is not the last entry; then every live entry stays, else exactly the fresh ones asked for are gone |
| AuthCache.RaisingScanSparesTheDoomed | src/apipi/gateway/auth.py:115-135 | three calls after which an invalidated identity is still answered |
| AuthCache.PutCounts | src/apipi/gateway/auth.py:102-110 | a put counts as many evictions as it loses entries, and loses one only when the cache is full |
| AuthCache.TakingBackCounts | src/apipi/gateway/auth.py:112-140 | the answers of the three ways to take back: whether the key was held, how many identities went beside an expired one, how many entries there were |
| AuthCache.InPlace.Get | src/apipi/gateway/auth.py:89-100 | expiry deletes, a hit moves to the end, zero entries disables |
| AuthCache.InPlace.Put | src/apipi/gateway/auth.py:102-110 | the new entry goes last and the least recently used are evicted and counted |
| AuthCache.InPlace.Invalidate | src/apipi/gateway/auth.py:112-113 | the key is gone, and the answer tells whether it was there |
| AuthCache.InPlace.InvalidateWhere | src/apipi/gateway/auth.py:115-135 | scan and pops equal the specification, the raising scan included |
| SingleFlight.OneFlightPerKey | src/apipi/gateway/auth.py:383-429 | in every interleaving: at most one unfinished task per key, everyone who joined gets that task's outcome, and nothing is left in the table once all are answered |
| SingleFlight.LeavingSparesUnfinishedFlights | src/apipi/gateway/auth.py:405-408 | in every run, whoever leaves and however late, the flight of an unfinished task stays in the table |
| SingleFlight.RateLimitIsNeverCached | src/apipi/gateway/auth.py:423-429 | a 429 reject is never in the cache and never answered from it |
| SingleFlight.CachedAnswersWereGiven | src/apipi/gateway/auth.py:411-429 | in every run each cached answer was given by a task that finished and was stored under that key then, to expire after the TTL |
| SingleFlight.CacheAnswersWithWhatWasGiven | src/apipi/gateway/auth.py:390-393 | in every run a request answered without a flight holds an answer a finished task had stored under its key less than the TTL before it looked |
| SingleFlight.FinishedAnswersTheNext | src/apipi/gateway/auth.py:423-429 | after a finish other than a 429, whatever requests come and go, the next look under the key stored, before the TTL is over, is answered with it and starts no task |
| SingleFlight.InvNext | src/apipi/gateway/auth.py:387-408 | every step keeps: an unfinished task is the flight of its key, and a flight has someone inside |
| SingleFlight.Flights.Enter | src/apipi/gateway/auth.py:394-400 | joins the flight of the key or starts one |
| SingleFlight.Flights.Leave | src/apipi/gateway/auth.py:405-408 | removes the flight only if it is the one joined |
| AttachmentNames.AttachmentName | src/apipi/services/files.py:157-178 | the cutting loop equals the specification |
| AttachmentNames.CleanedIsTheLastSegment | src/apipi/services/files.py:157-166 | the cleaned name is what follows the last separator, without exactly the dropped characters and the white space at its ends, or `file` |
| AttachmentNames.SafeNameIsSafe | src/apipi/services/files.py:157-178 | at most 200 bytes of UTF-8, not empty, no separator, no dot name, no dropped character; the clean name if it fits, else its longest fitting prefix with the extension |
| AttachmentNames.FreeAttachmentPath | src/apipi/services/files.py:181-192 | the first path tried that is free, after at most as many taken ones as there are taken paths |
| AttachmentNames.PathsTried | src/apipi/services/files.py:181-192 | the paths tried are the plain one, then the stem with 2, 3 and so on in front of the extension |
| AttachmentNames.TakenBoundsTheSearch | src/apipi/services/files.py:189-192 | the paths tried are distinct, so no more can be found taken than are taken |
| Attachments.SessionFiles.AttachSessionFiles | src/apipi/services/files.py:225-291 | succeeds if and only if the rows exist and the files fit; then paths stay distinct, old paths stay, new ones are first free for their name and avoid agent inputs and old paths, and the record names what was created and placed |
| Attachments.SessionFiles.Attach | src/apipi/services/files.py:474-503 | a failed attach leaves the bindings as they were |
| Attachments.SessionFiles.Unbind | src/apipi/services/files.py:505-519 | created bindings go, placed paths are cleared, the record is emptied |
| Attachments.UnbindUndoesAttach | src/apipi/store/repo.py:1762-1797 | unbinding restores the bindings from before the attach, whatever happened to other files in between |
| Bundles.ApplyInvertsRedact | src/apipi/services/bundles.py:149-243 | applying a redacted agent gives it back, up to empty collections, if and only if the maps give every secret, credential and vault back under its derived name |
| Bundles.RestorableIffUnambiguous | src/apipi/services/bundles.py:382-484 | some maps give the agent back if and only if no derived name stands for two values |
| Bundles.PlaceholdersAreTheUses | src/apipi/services/bundles.py:382-484 | the redacted agent holds one placeholder per secret, credential and vault, in order |
| Bundles.NothingIsMissing | src/apipi/services/bundles.py:505-598 | with everything supplied nothing is missing |
| Bundles.RedactedShowsNoSecret | src/apipi/services/bundles.py:382-484 | of any agent, no header value, environment value, credential id or vault id is left in its place, only named placeholders |
| Bundles.OnlyNamesShow | src/apipi/services/bundles.py:382-484 | two agents that differ only in values and ids with the same derived names redact to the same agent: a value shows through its name alone |
| BundleReferences.BundleIsApplied | src/apipi/services/bundles.py:505-598 | of any bundle: each tool and the defaults come to what their references are supplied with, field by field in order, an empty id or collection counting as none |
| BundleReferences.MissingIdsAreTold | src/apipi/services/bundles.py:505-598 | a credential or vault is reported missing exactly when it is referred to and no id that is not empty is supplied |
| BundlesInPlace.RedactAgent | src/apipi/services/bundles.py:173-190 | the loops over shared lists give the redacted agent and one requirement per placeholder, with its kind, in order |
| BundlesInPlace.ApplyBundle | src/apipi/services/bundles.py:211-227 | for any maps, `missing` lists exactly the placeholders left open, in order |
| BundlesInPlace.ApplyTool | src/apipi/services/bundles.py:505-539 | one tool, its headers and credential, and what it adds to the missing |
| BundlesInPlace.ApplyVaults | src/apipi/services/bundles.py:582-597 | vault ids in order; an empty id counts as missing |
| SandboxStatus.RunKeepsRowsInStep | src/apipi/services/sandbox_status.py:159-263 | in every run the environment row is the one of the sandbox state once a phase is recorded, and cold boots count the ready reports |
| SandboxStatus.ViewsAgreeUnlessStale | src/apipi/services/sandbox_status.py:75-142 | the computed and the stored public view agree if and only if the row is not live and stale |
| SandboxStatus.ExpiryReconcilesViews | src/apipi/services/sandbox_status.py:320-345 | right after expiry they agree, and without changing the computed one |
| SandboxStatus.ExpiryOnlyAfterSilence | src/apipi/services/sandbox_status.py:320-359 | no sandbox is declared lost within the stale window of any sign of life |
| SandboxHistory.ColumnsAreTheLastReported | src/apipi/services/sandbox_status.py:171-263 | over every run worker, image, size, version and boot time are the last reported in a phase that carries them |
| SandboxHistory.StateIsTheLastMove | src/apipi/services/sandbox_status.py:171-345 | over every run state, reason and environment row are those of the last step that moved the sandbox, its own reason or `stop` among them, and the two moments those of the last steps that count |
| SandboxHistory.NoticeTellsTheColumns | src/apipi/services/sandbox_status.py:171-263 | the announcement of each phase tells the columns as they stand after it and the report's own fields |
| SandboxHistory.ExpiryAnnounces | src/apipi/services/sandbox_status.py:320-345 | an expiry announces a disconnect if and only if it ends a live sandbox unseen for fifteen seconds |
| SandboxStatus.SessionColumns.ApplyTransition | src/apipi/services/sandbox_status.py:171-263 | column by column, the row and the notice of the specification; `SandboxHistory` tells over every run what they hold |
| SandboxStatus.SessionColumns.NoteFailedInPlace | src/apipi/services/sandbox_status.py:287-317 | the failure columns of a hosted session, and nothing else |
| SandboxStatus.SessionColumns.ExpireIfStale | src/apipi/services/sandbox_status.py:320-345 | expires exactly the stale, and tells whether it did |
| SandboxStatus.SessionColumns.TouchSeenInPlace | src/apipi/services/sandbox_status.py:348-359 | refreshes only a starting or ready sandbox |
| Decimal.NumeralInjective | src/apipi/services/lifecycle_export.py:186-197 | different numbers have different numerals, so event ids and numbered paths differ |

## Left out

- SQL, asyncpg, the object store and HTTP: the store is maps and sequences, a savepoint or transaction that fails gives back the value before it; constraint conflicts with another transaction do not arise.
- Faults are part of the input: where in an envelope's handling an error strikes and whether it is transient is given with each delivery.
- Ingest.ApplyArtifactWork: what issuing a presign or completing an upload answers, stored or refused with a code, is given with the envelope; prechecks, object store and upload rows are not modelled.
- Ingest.ApplyUsage: of a turn log row only session, status, token counts and error code; latency, tools, agent, model and the daily rollups are not modelled, and usage goes to `turn_logs` as it does by default.
- Item creation stamps, file links, metrics and logging; envelope types that carry none of the modelled state keep only their event.
- In `Protocol` one worker holds the sessions at a time. A former worker that still sends is refused for want of a lease and does not appear, nor do spooled envelopes of sessions a restarted worker has no lease for, or damaged spool lines.
- The bounds of the worker's outbox and sender retries; the socket loses everything in flight when it closes.
- asyncio cancellation; a connection whose batch used up its tries is a reconnect.
- Real clocks: every reading is a given moment, one per call; in the authentication cache the readings of a run do not decrease.
- JSON texts, regexes, hashing, base64, zip and Unicode tables: encoded sizes, derived names and character classes are parameters.
- In `EventBus` a NOTIFY takes effect when it is sent or not at all; one whose client timed out and that commits later than a newer one is not in the model.
- In `EventBus` a replica has one flush at a time; the flush of `close()` beside that of a loop started again is not in the model.
- The order in which a flush of the event bus visits sessions: any order is allowed in `EventBus`, a given one in `EventBusInPlace`.
- Instance channels (`send_instance`), turn aborts and the reconnect loop of the listener beyond losing and regaining it.
- The filters of the lifecycle emitter (inactive, run mode not allowed), its sender, retries and identity fields; `api_heartbeat_loop`, whose entries carry no start number.
- LifecycleInversion.ReconcileInvertsEmitter: states one boot's log; of several boots `LifecycleGuarantees` tells which intervals are open and `LifecycleLaws.ShufflesReconcileAlike` that shuffles which keep the order of the boots change nothing.
- Attachments.SessionFiles.Attach: the three tries after a path conflict with another transaction are not modelled.
- BundlesInPlace.RedactAgent: the kind and server address inside a credential placeholder, which applying never reads, are not modelled.
- Bundle manifests, metadata migration, skills and files, and overrides.
- Settings, routers, middleware, the CLI and the playground.
