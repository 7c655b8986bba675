# A verified model of the drone command and telemetry services

The route service sits between MQTT devices, command sources and a PostgreSQL database; the backend
service fans telemetry out to browser sessions; the frontend shows a telemetry frame as a list of
paths. This project models the parts of the three whose correctness is a matter of many steps, and
proves what holds of every run. `dafny verify dfyconfig.toml` checks all of it.

**The command lifecycle** (`Command*.dfy`). `CommandService.dfy` is the business thread as functions on
its state, branch by branch; `CommandServiceObject.dfy` is the same as an object whose methods update
fields in place, each proved equal to its function. `CommandStore.dfy` is the `commands` table as atomic
steps with the history of every row. `CommandInvariant.dfy` puts service, result queue, worker FIFO and
table into one state; `CommandBlocks.dfy`, `CommandHandlers.dfy` and `CommandSteps.dfy` show that each
handler, each executed task and each restart keeps its invariant; `CommandRuns.dfy` defines runs, and
`CommandTheorems.dfy` states what follows. `CommandOutcomes.dfy` says on the inputs of each handler, without
the functions it is built from, who is told what and which task the database gets. `CommandRounds.dfy` ties a
round of the object to a run.

**The write-behind pipeline** (`Device*.dfy`, `DirtyState*.dfy`, `PostgresWorker*.dfy`). The directory, the
dirty cache, the device service and the database thread are functions plus objects in the same way.
`DeviceSlices.dfy` holds everything the pipeline knows about one device, from the directory to its row,
with the invariant each transition keeps; `DevicePipeline.dfy` is the whole, for any number of devices,
and `DevicePipelineTheorems.dfy` states that no flagged change is lost and no newer write overwritten.
`DeviceOutcomes.dfy` says on the inputs what each result, message and dispatch does. `DeviceBatches.dfy` and
`DeviceRounds.dfy` reduce the loops over many devices to single steps.

**Browser interest** (`TelemetryInterest.dfy`, `RealtimeSubscriptions.dfy`, `InterestDelivery.dfy`): a
reference count over sessions, and the asynchronous loop that makes broker subscriptions follow it,
one method per stretch between two suspensions.

**Smaller pieces**: `TargetResolution.dfy`, `MqttPublishing.dfy`, `MqttTopics.dfy`, `CommandId.dfy`,
`TelemetryPaths.dfy`. `Wrappers.dfy` and `Collections.dfy` hold Option, Result,
sizes of sets and maps, and paths of a transition relation.

## How runs are modelled

- A step is one critical section of one thread. Results, publish completions and messages may be handled
  in any order and at any time, which includes the priority order of `ProcessReady`; timeouts are handled
  per command, dispatches, expiries and recoveries per device.
- The database may commit a task and lose the answer, answer unavailable, or fail for good. A lost
  compare-and-set is a permanent error marked "state changed": a connection starts with the permanent
  failure kind (`postgres_store.hpp`), and every unavailable answer leads to a new connection.
- The task the database thread is running still counts as the head of the FIFO; the object keeps it apart
  and shows that taking it changes nothing visible.
- A restart reads its settings anew, recovers active control rows to delivery_uncertain, reloads
  configuration rows within the capacity, and forgets everything in memory. `sent` and `handed` log every source ACK and every call of
  the device publisher, across restarts.
- The state of a run also remembers, for each command id, the record it was created with and the ACKs received
  for it (`Origin`); no handler reads them, they only serve to say where a success comes from.
- Assumed of the surroundings: a generated command id is new; the ACK parsers admit only the statuses of
  their command type; telemetry carries no label (`device_message.cpp:203`); a packet id the client library
  assigns is unused (section 2.3.1 of MQTT 3.1.1). Integers are unbounded, times are integers.
- Device messages only arrive after every start-up write is queued: the MQTT client is created and started
  after the device runtime has been started (`service_runner.cpp:142-154`, `service_environment.cpp:429-441`).
- Device writes: `lost` names the devices one of whose writes was refused for good, cancelled or dropped by
  a stop. The promises about stored content are made for all other devices, those about order for all.

## Where the code does less than it promises

- **A refused provisioned record.** The counter of outstanding work is lowered but the entry stays
  (`device_service.cpp:370-373`); two flight controllers without a school under one label suffice, since
  the database does not compare labels of a missing school. `OutstandingIsExact` gives the exact relation,
  `RefusalBreaksTheCount` a run.
- **A missed wake-up.** A device desired after the reconcile loop ended and before its promise is cleared is
  not subscribed until somebody calls again (`realtimeTopicSubscriptions.ts:55-66`). `InterestsInGap` and
  `ConnectionInGap` say exactly which calls in that gap cost convergence; `LateInterestIsMissed` shows one.
- **An empty telemetry object** produces no group although every other empty container does
  (`telemetryFrame.ts:96-102`); `FrameListsTheLeaves` says so exactly.

## Model

| member | source | states |
|---|---|---|
| `CommandTheorems.ControlDeliveredAtMostOnce` | route_service/src/core/runtime/command_service.cpp:608-634 | In every state of every run no control command id was handed to the device publisher twice, and of two control hand-overs for one (source_id, request_id) at most one has its row stored; every hand-over happened with its row stored and pending, when no earlier row of that request was left |
| `CommandTheorems.AcksFollowTheRow` | route_service/src/core/runtime/command_service.cpp:387-610 | Every status acknowledged to a source is one its row really had; two ACKs of a command follow the order of CanTransition; after a terminal ACK only that status is repeated; the ACK goes to the row's source |
| `CommandTheorems.TransitionsAreLegal` | route_service/src/core/runtime/command_service.cpp:870-901 | Every transition task queued or deferred on any reachable state satisfies CanTransition(expected, desired) |
| `CommandTheorems.GuardNeverFires` | route_service/src/adapters/postgres/postgres_store.cpp:864-867 | The store's illegal-transition guard never answers on a reachable state |
| `CommandTheorems.AdmissionIsBounded` | route_service/src/core/runtime/command_service.cpp:363-384 | Active commands plus pending lookups and inserts never exceed the configured limit |
| `CommandTheorems.OperationsAreAccounted` | route_service/src/core/runtime/command_service.cpp:998-1006 | The outstanding counter equals the number of operations, and until the worker stops the unhandled results followed by the FIFO hold each operation exactly once, in order of submission |
| `CommandTheorems.NothingIsUndone` | route_service/src/core/runtime/command_service.cpp:1008-1036 | Along a run ACKs and hand-overs only get appended, row histories only grow, and a terminal row never changes again |
| `CommandTheorems.HandoverInStep` | route_service/src/core/runtime/command_service.cpp:517-610 | A control hand-over in one step is the service's own first insert of a row that is stored and pending; no earlier hand-over of that request still has its row |
| `CommandTheorems.SuccessWasAcknowledged` | route_service/src/core/runtime/command_service.cpp:734-763 | In every state of every run a row that succeeded or is in progress, and every success or progress a source was told of, goes back to an ACK received from the row's target device, of its type and id, that accepted the command or reported progress; rows already so before the first start are excepted |
| `CommandRuns.NextKeeps` | route_service/src/core/runtime/command_service.cpp:192-218 | Every step of either thread, every lost or repeated database answer, outage, crash and restart keeps the invariant and extends the row histories |
| `CommandRuns.InvariantHolds` | route_service/src/core/runtime/command_service.cpp:192-218 | The invariant holds in every state of every run |
| `CommandSteps.RestartKeeps` | route_service/src/service_environment.cpp:575-599 | A crash followed by recovery of the control rows and reloading of the configuration rows keeps the invariant |
| `CommandSteps.ExecutedKeeps` | route_service/src/core/runtime/postgres_worker.cpp:149-209 | Running the task at the head of the FIFO keeps the invariant whether it was committed or not and whether its answer arrived or not; an outage leaves it at the head |
| `CommandSteps.SourceRequestKeeps` | route_service/src/core/runtime/command_service.cpp:298-385 | Admitting or rejecting a source request keeps the invariant, the admission bound included |
| `CommandHandlers.DeviceAckKeeps` | route_service/src/core/runtime/command_service.cpp:660-765 | A device ACK, early or not, only ever produces a legal transition of its own command |
| `CommandHandlers.StoredKeeps` | route_service/src/core/runtime/command_service.cpp:512-610 | A stored row is published, acknowledged, dropped or asked to move on without leaving the invariant; in particular no dropped id becomes active again |
| `CommandHandlers.ConvergeKeeps` | route_service/src/core/runtime/command_service.cpp:955-996 | Re-reading a row after a lost compare-and-set keeps the invariant |
| `CommandHandlers.ValueKeeps` | route_service/src/core/runtime/command_service.cpp:387-610 | Handling any database answer, expected or an error, keeps the invariant |
| `CommandSteps.CompletionKeeps` | route_service/src/core/runtime/command_service.cpp:827-868 | A publish completion keeps the invariant: the record it carries is pending or dispatched |
| `CommandSteps.ScanKeeps` | route_service/src/core/runtime/command_service.cpp:789-824 | A timeout or a recovery publish of one command keeps the invariant |
| `CommandBlocks.RetryKeeps` | route_service/src/core/runtime/command_service.cpp:885-901 | Trying a deferred transition again keeps the invariant |
| `CommandLogs.StepLogs` | route_service/src/core/runtime/command_service.cpp:612-634 | In one step the logs only grow, and what is handed over is a configuration command or the first insert of this process |
| `CommandRounds.RoundIsARun` | route_service/src/core/runtime/command_service.cpp:192-218 | Whatever one round of the object's ProcessReady leaves behind is reached by steps of a run, so the theorems hold of it |
| `CommandTheorems.OneCleanupAtATime` | route_service/src/core/runtime/command_service.cpp:771-786 | In every state of every run at most one cleanup operation is outstanding |
| `CommandService.CleanupIsScheduled` | route_service/src/core/runtime/command_service.cpp:767-788 | Under what conditions an operation is added, that it is a cleanup, and where the due date goes |
| `CommandService.EarlyAckSurvives` | route_service/src/core/runtime/command_service.cpp:710-732 | Which of two early ACKs of a command waits: a final control ACK is never displaced, least of all by progress; other commands' ACKs are left alone |
| `CommandOutcomes.AckOutcome` | route_service/src/core/runtime/command_service.cpp:660-763 | On the inputs alone: an ACK changes nothing unless it names an active command of its device, type and control command; for a pending one it waits; otherwise exactly one transition is queued or deferred, to succeeded iff applied, already_applied or accepted, failed iff rejected, timeout iff the device timed out, in_progress iff progress, with the ACK, its code and its times, and only progress moves the deadline |
| `CommandOutcomes.RequestOutcome` | route_service/src/core/runtime/command_service.cpp:310-385 | The reasons to turn a request away, in their order and each with its code; one that passes starts exactly one lookup with the deadline of its type |
| `CommandOutcomes.FoundOutcome` | route_service/src/core/runtime/command_service.cpp:437-454 | A found row is answered with exactly one ACK: that row if and only if its payload is the request's, idempotency_conflict otherwise |
| `CommandOutcomes.ForeignInsertOutcome` | route_service/src/core/runtime/command_service.cpp:517-531 | The same answer when the insert met a row of another command |
| `CommandOutcomes.NewRequestOutcome` | route_service/src/core/runtime/command_service.cpp:456-510 | The row a new request is inserted as: pending if and only if it is well-formed, resolved and online, otherwise failed with the code of the first reason; identity, payload, target and times are the request's |
| `CommandOutcomes.PublishOutcome` | route_service/src/core/runtime/command_service.cpp:612-658 | A command with a target is handed over once under a new token; a refusal leaves no publication and asks once for failed with mqtt_publish_failed |
| `CommandOutcomes.CompletionOutcome` | route_service/src/core/runtime/command_service.cpp:827-868 | Nothing for an unknown token or a delivered command already dispatched; otherwise exactly one transition: dispatched with its time iff delivered, else delivery_uncertain iff it is a control command and failed iff it is not, each with its code |
| `CommandOutcomes.ScanOutcome` | route_service/src/core/runtime/command_service.cpp:792-824 | Past its deadline a command gets one timeout with the code of its type and keeps its dispatch time; before it only a configuration command with an online target is handed over again; the latch allows each once |
| `CommandOutcomes.LoadOutcome` | route_service/src/core/runtime/command_service.cpp:248-269 | A list within the limit makes exactly its unfinished commands of known sources active, with deadlines from the last progress or the creation on; a longer one changes nothing |
| `CommandOutcomes.PersistedOutcome` | route_service/src/core/runtime/command_service.cpp:555-606 | Every stored row is acknowledged once; one that has ended is forgotten, another stays active, and a dispatched one replays the ACK that waited |
| `CommandOutcomes.StoredOutcome` | route_service/src/core/runtime/command_service.cpp:532-610 | What follows the service's own insert or transition: the wanted end asked for once more, the row persisted, or the command handed over |
| `CommandOutcomes.ConvergeOutcome` | route_service/src/core/runtime/command_service.cpp:955-996 | After a lost compare-and-set: an ended row is forgotten and acknowledged if it was active; a wanted status still legal is asked for from the row's; any other row is adopted |
| `CommandOutcomes.ErrorOutcome` | route_service/src/core/runtime/command_service.cpp:394-420 | A lost compare-and-set asks for the row, an outage is remembered, another error changes nothing |
| `CommandOutcomes.AnswerOutcome` | route_service/src/core/runtime/command_service.cpp:387-436 | Each answer goes to the handler of its operation, which is taken out and uncounted; an answer of the wrong shape changes nothing else |
| `CommandOutcomes.RetryOutcome` | route_service/src/core/runtime/command_service.cpp:885-901 | A deferred transition is queued as it was when possible and kept otherwise |
| `CommandOutcomes.CleanupOutcome` | route_service/src/core/runtime/command_service.cpp:767-788 | A cleanup that is due, alone and possible removes what ended more than the retention ago, at most a batch; otherwise none is added |
| `CommandOutcomes.LatchOutcome` | route_service/src/core/runtime/command_service.cpp:242-279 | Exactly the commands a returning connection or target concerns may be handed over again |
| `CommandOutcomes.DrainOutcome` | route_service/src/core/runtime/command_service.cpp:192-215 | Draining the queues is draining all results, then all completions, then all messages |
| `CommandOutcomes.SubmissionQueues` | route_service/src/core/runtime/command_service.cpp:998-1006 | Accepted exactly when the worker is open and has room; then one task more at the end of the FIFO and one operation more |
| `CommandOutcomes.TransitionAsks` | route_service/src/core/runtime/command_service.cpp:870-883 | A transition is queued and supersedes the deferred one, or becomes the deferred one and the database counts as unavailable |
| `CommandStore.InsertKeeps` | route_service/src/adapters/postgres/postgres_store.cpp:812-858 | An insert returns the one row that holds (source_id, request_id), creates it at most once, and keeps keys unique and histories legal |
| `CommandStore.TransitionKeeps` | route_service/src/adapters/postgres/postgres_store.cpp:860-905 | A transition changes the row exactly when it is legal and the status is the expected one, to the given status and columns; otherwise the table is untouched and the error says which |
| `CommandStore.RemoveKeeps` | route_service/src/adapters/postgres/postgres_store.cpp:907-939 | Cleanup removes only rows that ended before the given time, leaves the others as they are, keeps keys unique and forgets no history |
| `CommandStore.RecoverKeeps` | route_service/src/adapters/postgres/postgres_store.cpp:729-766 | Start-up recovery ends exactly the active control commands, each as delivery_uncertain with its code and time; every other row stays as it was, keys stay unique and histories legal |
| `CommandStore.SeenPrecedesLater` | route_service/src/core/command/command_state.cpp:50-69 | A status a row once had may precede every status it has later |
| `CommandState.PrecedesIsReachability` | route_service/src/core/command/command_state.cpp:50-69 | The order used for ACKs is exactly reachability along CanTransition |
| `CommandState.TransitionsLeadForward` | route_service/src/core/command/command_state.cpp:44-69 | A transition leads forward, only progress repeats, a pending command neither runs nor succeeds, and exactly the terminal statuses lead nowhere |
| `CommandState.HistoryIsOrdered` | route_service/src/core/command/command_state.cpp:44-69 | Along a legal history every earlier status precedes every later one |
| `CommandServiceObject.CommandService.Submit` | route_service/src/core/runtime/command_service.cpp:998-1006 | A new operation id is always used up; the operation is recorded and counted exactly when the worker accepted it |
| `CommandServiceObject.CommandService.SubmitTransitionOrDefer` | route_service/src/core/runtime/command_service.cpp:870-883 | An accepted transition leaves no deferred one behind; a refused one is kept and marks the database unavailable |
| `CommandServiceObject.CommandService.RetryDeferredTransitions` | route_service/src/core/runtime/command_service.cpp:885-901 | One deferred transition is submitted when the database is available, and kept when it is refused |
| `CommandServiceObject.CommandService.PublishRecord` | route_service/src/core/runtime/command_service.cpp:612-658 | The publisher is called at most once; a refusal withdraws the publication and asks for the failed status |
| `CommandServiceObject.CommandService.BufferEarly` | route_service/src/core/runtime/command_service.cpp:710-732 | A final control ACK is never displaced; otherwise a first or a different ACK takes the place |
| `CommandServiceObject.CommandService.HandleDeviceAck` | route_service/src/core/runtime/command_service.cpp:660-765 | The in-place handling equals the function whose outcome `AckOutcome` states on the inputs |
| `CommandServiceObject.CommandService.HandleMessage` | route_service/src/core/runtime/command_service.cpp:298-309 | ACK messages and source requests as the specification says |
| `CommandServiceObject.CommandService.HandleRequest` | route_service/src/core/runtime/command_service.cpp:310-385 | The rejection reasons in their order, and the lookup that starts a command |
| `CommandServiceObject.CommandService.HandleResult` | route_service/src/core/runtime/command_service.cpp:387-393 | The operation is taken out and uncounted exactly once; an unknown id changes nothing |
| `CommandServiceObject.CommandService.HandleValue` | route_service/src/core/runtime/command_service.cpp:394-436 | Errors, lookups and rows go to their handlers |
| `CommandServiceObject.CommandService.HandleFound` | route_service/src/core/runtime/command_service.cpp:437-510 | A found row is answered with itself exactly when the payloads are equal, with idempotency_conflict otherwise; a new request as `NewRequestOutcome` says |
| `CommandServiceObject.CommandService.HandleTransitionConflict` | route_service/src/core/runtime/command_service.cpp:944-953 | A lost compare-and-set asks for the row |
| `CommandServiceObject.CommandService.ConvergeAfterConflict` | route_service/src/core/runtime/command_service.cpp:955-996 | A terminal row drops the command and is acknowledged if it was active; otherwise the service adopts the row or asks for its transition again |
| `CommandServiceObject.CommandService.HandlePersisted` | route_service/src/core/runtime/command_service.cpp:555-606 | A stored transition is acknowledged; a terminal one is dropped, and a dispatched one replays the early ACK |
| `CommandServiceObject.CommandService.HandleStored` | route_service/src/core/runtime/command_service.cpp:512-610 | The in-place handling equals the function whose outcomes `ForeignInsertOutcome` and `StoredOutcome` state on the inputs |
| `CommandServiceObject.CommandService.HandleCompletion` | route_service/src/core/runtime/command_service.cpp:827-868 | The in-place handling equals the function whose outcome `CompletionOutcome` states on the inputs |
| `CommandServiceObject.CommandService.ScheduleCleanup` | route_service/src/core/runtime/command_service.cpp:767-788 | A cleanup is added only when due, with the database available and none outstanding; the due date then moves one interval on |
| `CommandServiceObject.CommandService.ScanOne` | route_service/src/core/runtime/command_service.cpp:792-824 | The in-place scan of one command equals the function whose outcome `ScanOutcome` states on the inputs |
| `CommandServiceObject.CommandService.ProcessTimeoutsAndRecovery` | route_service/src/core/runtime/command_service.cpp:767-825 | Every active command is scanned exactly once, after the cleanup |
| `CommandServiceObject.CommandService.OnTargetOnline` | route_service/src/core/runtime/command_service.cpp:271-279 | Exactly the commands of the device may be recovered again, and the scan runs |
| `CommandServiceObject.CommandService.LoadActive` | route_service/src/core/runtime/command_service.cpp:248-269 | The loop over the loaded rows equals the function whose outcome `LoadOutcome` states |
| `CommandServiceObject.CommandService.Drain` | route_service/src/core/runtime/command_service.cpp:192-215 | All results, then all completions, then all messages |
| `CommandServiceObject.CommandService.ProcessReady` | route_service/src/core/runtime/command_service.cpp:192-218 | One round: the queues, one deferred transition, and the scan |
| `PostgresWorkerObject.PostgresWorker.SubmitCommand` | route_service/src/core/runtime/postgres_worker.cpp:48-59 | Accepted exactly when open, new and within the limit; then it joins the end of the FIFO |
| `PostgresWorkerObject.PostgresWorker.SubmitProvision` | route_service/src/core/runtime/postgres_worker.cpp:28-38 | Refused while closed, unavailable or already running for the device; otherwise the newest registration waits |
| `PostgresWorkerObject.PostgresWorker.SubmitWrite` | route_service/src/core/runtime/postgres_worker.cpp:40-46 | Refused when closed, otherwise merged |
| `PostgresWorkerObject.PostgresWorker.MergeWrite` | route_service/src/core/runtime/postgres_worker.cpp:362-380 | The pending write of a device keeps the union of the flags, a revision no older than either, and an immediate urgency |
| `PostgresWorkerObject.PostgresWorker.Take` | route_service/src/core/runtime/postgres_worker.cpp:69-98 | What a turn takes: reconnection, else a command, else a provisioning, else a write; taking a command leaves the FIFO as it was |
| `PostgresWorkerObject.PostgresWorker.FinishCommand` | route_service/src/core/runtime/postgres_worker.cpp:195-209 | An outage leaves the command in front of the FIFO and emits nothing; otherwise exactly one result |
| `PostgresWorkerObject.PostgresWorker.FinishProvision` | route_service/src/core/runtime/postgres_worker.cpp:224-251 | The result of a provisioning, and what an outage drops |
| `PostgresWorkerObject.PostgresWorker.FinishWrite` | route_service/src/core/runtime/postgres_worker.cpp:263-283 | The result of a write; an outage merges it back |
| `PostgresWorkerObject.PostgresWorker.FinishReconnect` | route_service/src/core/runtime/postgres_worker.cpp:102-147 | Recovery, another try, or a stop that drops everything |
| `PostgresWorkerObject.PostgresWorker.RequestDrain` | route_service/src/core/runtime/postgres_worker.cpp:300-304 | Nothing more is accepted and the loop will end when its work is done |
| `PostgresWorkerObject.PostgresWorker.RunOnce` | route_service/src/core/runtime/postgres_worker.cpp:64-284 | One turn of the loop does what the specification of its work says, and the results emitted so far followed by the FIFO stay the accepted operations in order |
| `PostgresWorkerObject.LaneEmits` | route_service/src/core/runtime/postgres_worker.cpp:204-208 | Emitting the result of the head keeps: results emitted, then the FIFO, are the accepted operations in order |
| `DeviceRegistry.RegistrationKeeps` | route_service/src/core/device/device_registry.cpp:83-141 | A registration keeps both indexes exactly the inverse of the labelled records |
| `DeviceRegistry.TelemetryKeeps` | route_service/src/core/device/device_registry.cpp:143-191 | Telemetry, with or without a label, keeps both indexes exact |
| `DeviceRegistry.ExpiryKeeps` | route_service/src/core/device/device_registry.cpp:193-222 | Expiry keeps both indexes exact |
| `DeviceRegistry.LoadKeeps` | route_service/src/core/device/device_registry.cpp:54-81 | A snapshot loads exactly when no device id and no label of a school occurs twice; the result holds exactly those records with exact indexes |
| `DeviceRegistry.LoadOneKeeps` | route_service/src/core/device/device_registry.cpp:224-251 | A provisioned record is taken exactly when its id is new and no device of its school holds its label |
| `DeviceRegistry.NameLookupIsScan` | route_service/src/core/device/device_registry.cpp:286-299 | Lookup and ambiguity by school name are what a scan of all records finds: one holder, several, none |
| `DeviceRegistry.RoleLookupIsScan` | route_service/src/core/device/device_registry.cpp:280-284 | Lookup by school id is what a scan finds |
| `DeviceRegistry.RegistrationAdvances` | route_service/src/core/device/device_registry.cpp:95-133 | One revision further for its own device only; unflagged groups unchanged; the label is refused exactly when another device of the school holds it |
| `DeviceRegistry.RegistrationStores` | route_service/src/core/device/device_registry.cpp:83-133 | A registration is taken exactly from a known device of the right type; the record is online iff the registration is, seen now iff online, with the registration's capabilities, product and version where given and the old ones elsewhere; the reason and the school diagnostic follow from it |
| `DeviceRegistry.TelemetryStores` | route_service/src/core/device/device_registry.cpp:143-185 | Telemetry is taken exactly from a known device that claims no other type; the record is online, seen and reported now, with this payload |
| `DeviceRegistry.ExpiryStores` | route_service/src/core/device/device_registry.cpp:193-222 | Exactly the online devices not seen for the timeout go offline, one revision further |
| `DeviceRegistry.TelemetryAdvances` | route_service/src/core/device/device_registry.cpp:151-185 | Telemetry without a label leaves the metadata alone; with one it does so exactly when the label stays |
| `DeviceRegistry.RelabelExact` | route_service/src/core/device/device_registry.cpp:134-139 | Exchanging the record and both index entries keeps the indexes exact |
| `DeviceRegistryObject.DeviceRegistry.Load` | route_service/src/core/device/device_registry.cpp:54-81 | Loads exactly the loadable lists; a failed load changes nothing |
| `DeviceRegistryObject.DeviceRegistry.ApplyRegistration` | route_service/src/core/device/device_registry.cpp:83-141 | The in-place registration stores what the registration says, equals the specification and keeps the indexes exact |
| `DeviceRegistryObject.DeviceRegistry.ApplyTelemetry` | route_service/src/core/device/device_registry.cpp:143-191 | The in-place update stores the payload and its time, equals the specification and keeps the indexes exact |
| `DeviceRegistryObject.DeviceRegistry.ExpireInactive` | route_service/src/core/device/device_registry.cpp:193-222 | Every inactive device goes offline one revision further, with exactly one mutation each |
| `DeviceRegistryObject.DeviceRegistry.AddProvisioned` | route_service/src/core/device/device_registry.cpp:224-251 | Adds the record, or refuses it and changes nothing |
| `DeviceRegistryObject.DeviceRegistry.AddNamedRole` | route_service/src/core/device/device_registry.cpp:38-42 | The device joins the end of its label's list |
| `DeviceRegistryObject.DeviceRegistry.RemoveNamedRole` | route_service/src/core/device/device_registry.cpp:44-52 | The device leaves its label's list, and an empty list disappears |
| `DeviceRegistryObject.DeviceRegistry.FindBySchoolAndLabel` | route_service/src/core/device/device_registry.cpp:280-284 | The only device of the school with that label |
| `DeviceRegistryObject.DeviceRegistry.FindBySchoolNameAndLabel` | route_service/src/core/device/device_registry.cpp:286-292 | The device a scan finds when it finds exactly one |
| `DeviceRegistryObject.DeviceRegistry.IsSchoolNameAndLabelAmbiguous` | route_service/src/core/device/device_registry.cpp:294-299 | True exactly when a scan finds several |
| `TargetResolution.ResolvesToTheOnlyOne` | route_service/src/core/command/command_router.cpp:50-90 | A target resolves to a device exactly when it is the only one the source addresses, said on the records alone |
| `TargetResolution.AmbiguousMeansTwo` | route_service/src/core/command/command_router.cpp:73-79 | Ambiguity is reported exactly when the source addresses two devices |
| `TargetResolution.ControlResolvesBoxesOnly` | route_service/src/core/command/command_router.cpp:92-109 | Control commands resolve like configuration commands, flight controllers excluded |
| `TargetResolution.SourceCatalog.Load` | route_service/src/core/command/command_router.cpp:18-43 | Loads exactly the well-formed lists without repeated ids; a refused list changes nothing |
| `DirtyState.TakenWriteIsTheUnion` | route_service/src/core/persistence/dirty_state.cpp:36-67 | However many marks were merged, the taken write has the newest record and exactly the union of the flags |
| `DirtyState.CompleteKeepsMarks` | route_service/src/core/persistence/dirty_state.cpp:82-100 | Completing any write leaves every dirty mark, record and revision as they are; an entry only goes when all it had in flight is covered by the write |
| `DirtyState.RefusedWriteComesBack` | route_service/src/core/persistence/dirty_state.cpp:102-128 | Restoring a refused write right after taking it makes the next take return the same write |
| `DirtyState.CompletedWriteIsGone` | route_service/src/core/persistence/dirty_state.cpp:82-100 | After the taken write completed, work is left exactly when a group was in flight before and not dirty |
| `DirtyState.MarkKeeps` | route_service/src/core/persistence/dirty_state.cpp:36-67 | The entry's revision stays at least every dirty and in-flight revision |
| `DirtyState.TakeKeeps` | route_service/src/core/persistence/dirty_state.cpp:134-165 | Taking keeps the entries coherent |
| `DirtyState.CompleteKeeps` | route_service/src/core/persistence/dirty_state.cpp:82-100 | Completing keeps the entries coherent and drops finished ones |
| `DirtyState.RestoreKeeps` | route_service/src/core/persistence/dirty_state.cpp:102-128 | Restoring keeps the entries coherent |
| `DirtyStateObject.DirtyState.Mark` | route_service/src/core/persistence/dirty_state.cpp:36-67 | The in-place mark does what the specification says |
| `DirtyStateObject.DirtyState.TakeMatching` | route_service/src/core/persistence/dirty_state.cpp:134-165 | Every selected entry, and no other, is emptied into one write |
| `DirtyStateObject.DirtyState.Complete` | route_service/src/core/persistence/dirty_state.cpp:82-100 | The in-place completion does what the specification says |
| `DirtyStateObject.DirtyState.Restore` | route_service/src/core/persistence/dirty_state.cpp:102-128 | The in-place restore does what the specification says |
| `DeviceServiceObject.DeviceService.Mark` | route_service/src/core/runtime/device_service.cpp:444-461 | Cache, reason, degraded revision and event of one mutation |
| `DeviceServiceObject.DeviceService.SubmitWrite` | route_service/src/core/runtime/device_service.cpp:486-524 | An accepted write is counted once per device; a refused one goes back into the cache and degrades the device |
| `DeviceServiceObject.DeviceService.HandleRegistration` | route_service/src/core/runtime/device_service.cpp:414-435 | A known device is registered, an unknown one waits |
| `DeviceServiceObject.DeviceService.HandleReport` | route_service/src/core/runtime/device_service.cpp:436-441 | A telemetry message is applied and marked |
| `DeviceServiceObject.DeviceService.HandleUnavailable` | route_service/src/core/runtime/device_service.cpp:301-319 | Degrades the device, drops what was pending and uncounts it |
| `DeviceServiceObject.DeviceService.HandlePermanentFailure` | route_service/src/core/runtime/device_service.cpp:320-352 | Uncounts and forgets what the failure concerns |
| `DeviceServiceObject.DeviceService.HandleRecovered` | route_service/src/core/runtime/device_service.cpp:353-365 | The outage is over, and every degraded device the directory knows is on its way in full at its revision or later; with a worker that takes nothing the same is dirty in the cache |
| `DeviceServiceObject.DeviceService.HandleProvisioned` | route_service/src/core/runtime/device_service.cpp:366-382 | The record enters the directory and its newest registration is applied, or it is refused |
| `DeviceServiceObject.DeviceService.HandleCompleted` | route_service/src/core/runtime/device_service.cpp:383-408 | Settles the submitted write; announces the recovery exactly when the completed revision reaches the degraded one |
| `DeviceServiceObject.DeviceService.TakeAndSend` | route_service/src/core/runtime/device_service.cpp:465-471 | Everything selected is taken first and then submitted |
| `DeviceServiceObject.DeviceService.DispatchWrites` | route_service/src/core/runtime/device_service.cpp:463-484 | What is dispatched in each mode, and what a refusal while draining blocks |
| `DeviceServiceObject.DeviceService.SubmitRegistrations` | route_service/src/core/runtime/device_service.cpp:260-278 | Every waiting registration is offered once |
| `DeviceServiceObject.DeviceService.ScanInactive` | route_service/src/core/runtime/device_service.cpp:284-289 | Every inactive device is expired and marked |
| `DeviceServiceObject.DeviceService.CancelWork` | route_service/src/core/runtime/device_service.cpp:247-256 | What a cancellation forgets |
| `DeviceServiceObject.DeviceService.ProcessReady` | route_service/src/core/runtime/device_service.cpp:228-292 | One round: results, cancellation, messages, registrations, expiry, dispatch |
| `DeviceOutcomes.MarkOutcome` | route_service/src/core/runtime/device_service.cpp:444-461 | One event with the right degraded flag; the device's entry gets exactly the groups of the reason dirty, urgent iff it is not telemetry; the degraded revision follows |
| `DeviceOutcomes.DegradeOutcome` | route_service/src/core/runtime/device_service.cpp:303-309 | A known device is degraded at the newer of the two revisions and that is announced with its last reason; an unknown one is ignored |
| `DeviceOutcomes.UnavailableOutcome` | route_service/src/core/runtime/device_service.cpp:301-319 | An outage is remembered, the waiting registrations are forgotten and the submitted ones uncounted, and the device is degraded |
| `DeviceOutcomes.FailureOutcome` | route_service/src/core/runtime/device_service.cpp:320-352 | The registration and the write of the failed device are forgotten and uncounted, and it is degraded |
| `DeviceOutcomes.StopOutcome` | route_service/src/core/runtime/device_service.cpp:326-336 | A failure of the whole store forgets and uncounts everything on its way |
| `DeviceOutcomes.QueueOutcome` | route_service/src/core/runtime/postgres_worker.cpp:40-46 | An open worker merges the write: union of the flags, newer record, immediate if one is; a closed one changes nothing |
| `DeviceOutcomes.SubmitOutcome` | route_service/src/core/runtime/device_service.cpp:486-524 | Accepted exactly while the worker is open: queued, counted once per device; refused: dirty again in full, and the device degraded |
| `DeviceOutcomes.RecoveredOutcome` | route_service/src/core/runtime/device_service.cpp:353-365 | After a recovery, said without the loop: the outage is over and every degraded device of the directory is queued and submitted with metadata, status and any telemetry flagged, at its revision, immediately; with a closed worker the same groups are dirty |
| `DeviceOutcomes.DispatchOutcome` | route_service/src/core/runtime/device_service.cpp:463-484 | Every group that is due (urgent, waiting for the interval, or everything once drained) is on its way and dirty no longer; every other entry stays; nothing happens during an outage or a blocked drain |
| `DeviceOutcomes.CompletedOutcome` | route_service/src/core/runtime/device_service.cpp:383-408 | The submitted write is settled iff the revision covers it; the device recovers, and that is announced, iff the revision covers the degraded one |
| `DeviceOutcomes.WaitingOutcome` | route_service/src/core/runtime/device_service.cpp:414-429 | The newest registration of an unknown device waits unless the database is unavailable, and stays submitted if it was |
| `DeviceOutcomes.OfferOutcome` | route_service/src/core/runtime/device_service.cpp:260-278 | A registration is offered while it was not taken; it is taken and counted exactly when the worker is open, available and not already at it |
| `DeviceOutcomes.ProvisionedOutcome` | route_service/src/core/runtime/device_service.cpp:366-382 | A provisioned record joins the directory exactly when its id and label are free, with the registration that waited applied and announced; it is counted no longer either way |
| `DeviceBatches.DispatchIsStepwise` | route_service/src/core/runtime/device_service.cpp:463-484 | Taking all selected entries and then submitting is the same as dispatching one device after the other |
| `DeviceBatches.ExpiryIsStepwise` | route_service/src/core/runtime/device_service.cpp:284-289 | Expiring all inactive devices and then marking is the same as one device after the other |
| `DeviceRounds.RoundIsARun` | route_service/src/core/runtime/device_service.cpp:228-292 | Whatever one round of the object's ProcessReady leaves behind is reached by steps of the pipeline, so its invariant holds |
| `DevicePipelineTheorems.WritesReachTheTableInOrder` | route_service/src/core/runtime/postgres_worker.cpp:253-283 | In every run the writes of one device reach the table in nondecreasing revision order |
| `DevicePipelineTheorems.NoFlaggedChangeIsLost` | route_service/src/core/runtime/device_service.cpp:444-524 | Every flagged group of a device none of whose writes was refused for good or cancelled is stored at least as new as its last flagging, or still dirty, queued, executing or waiting from start-up with the flag set |
| `DevicePipelineTheorems.QuietRowEqualsDirectory` | route_service/src/core/runtime/device_service.cpp:463-524 | When nothing is left to do for such a device its row has the directory's metadata, status and telemetry |
| `DevicePipelineTheorems.OnlyRefusalsLose` | route_service/src/core/runtime/postgres_worker.cpp:122-133 | The only ways a device is excluded from that promise |
| `DevicePipelineTheorems.DegradedIsAccurate` | route_service/src/core/runtime/device_service.cpp:300-309 | While a device is degraded, the remembered revision is at least the directory's |
| `DevicePipelineTheorems.RecoveryIsTrue` | route_service/src/core/runtime/device_service.cpp:401-407 | When a recovery is announced for a device that is not excepted, its row holds everything the directory does |
| `DevicePipelineTheorems.AnnouncementFollowsWrite` | route_service/src/core/runtime/device_service.cpp:401-407 | For every device: a recovery is announced only by the completion of a write that reached the table, at the degraded revision or later |
| `DevicePipelineTheorems.RecoveryWritesTheDirectory` | route_service/src/core/runtime/device_service.cpp:353-365 | In every state of every run: once the database is back every degraded device is in the directory, and its record there is on its way with all its groups flagged |
| `DevicePipelineTheorems.ProvisionedRow` | route_service/src/adapters/postgres/postgres_store.cpp:436-510 | A device that has a row keeps it; a new one gets the row its registration describes |
| `DevicePipelineTheorems.OutstandingIsExact` | route_service/src/core/runtime/device_service.cpp:208-226 | The outstanding work is the submitted writes plus submitted registrations, minus the refusals since the last cancellation; exact if and only if there was none |
| `DevicePipelineTheorems.RefusedForItsLabel` | route_service/src/core/runtime/device_service.cpp:370-373 | A provisioned record is refused exactly when a device of the directory holds its label |
| `DevicePipelineTheorems.StartupWriteIsNewest` | route_service/src/service_environment.cpp:429-441 | A start-up write still to be queued is as new as anything its device has, down to the table, in every state of every run |
| `DevicePipelineCases.RefusalBreaksTheCount` | route_service/src/core/runtime/device_service.cpp:370-373 | A run in which two flight controllers without a school make the counter forget an entry |
| `DevicePipelineSteps.NextKeeps` | route_service/src/core/runtime/device_service.cpp:228-292 | Every step of the pipeline keeps its invariant |
| `DeviceSlices.MutatedOk` | route_service/src/core/runtime/device_service.cpp:22-32 | Marking a mutation keeps the invariant of its device: flags, revisions, coverage, order |
| `DeviceSlices.DispatchedOk` | route_service/src/core/runtime/device_service.cpp:463-484 | Taking the dirty entry and merging its write into the queue loses no flag and reverses no revision |
| `DeviceSlices.RequeuedOk` | route_service/src/core/runtime/postgres_worker.cpp:267-274 | Merging an executing write back after an outage loses no flag and reverses no revision |
| `DeviceSlices.WrittenOk` | route_service/src/adapters/postgres/postgres_store.cpp:518-583 | A stored write leaves every up-to-date flagged group in the row |
| `DeviceSlices.StartupQueuedOk` | route_service/src/service_environment.cpp:436-438 | Queueing the start-up write loses no flag and reverses no revision |
| `DeviceSlices.RestoredOk` | route_service/src/core/runtime/device_service.cpp:488-499 | A refused write put back into the cache keeps the invariant |
| `TelemetryInterest.TelemetryInterestRegistry.Subscribe` | backend_service/src/realtime/telemetryInterestRegistry.ts:13-28 | The session watches one device more; the listener hears true exactly for the first watcher |
| `TelemetryInterest.TelemetryInterestRegistry.Unsubscribe` | backend_service/src/realtime/telemetryInterestRegistry.ts:29-36 | The session watches one device less; the listener hears false exactly for the last watcher |
| `TelemetryInterest.TelemetryInterestRegistry.RemoveSession` | backend_service/src/realtime/telemetryInterestRegistry.ts:38-45 | The session watches nothing, the others what they did |
| `TelemetryInterest.TelemetryInterestRegistry.IsInterested` | backend_service/src/realtime/telemetryInterestRegistry.ts:47-49 | True exactly for a watcher |
| `TelemetryInterest.CountUp` | backend_service/src/realtime/telemetryInterestRegistry.ts:21-27 | Counts stay the number of watching sessions, absent when zero; notifications of a device alternate starting with true |
| `TelemetryInterest.CountDown` | backend_service/src/realtime/telemetryInterestRegistry.ts:51-60 | The same when a session leaves |
| `TelemetryInterest.DesiredIsWatched` | backend_service/src/realtime/telemetryInterestRegistry.ts:13-60 | What a listener ends up wanting is exactly what some session watches |
| `InterestDelivery.Deliver` | backend_service/src/route/realtimeTopicSubscriptions.ts:34-41 | After the notifications the controller desires exactly the watched devices |
| `RealtimeSubscriptions.RealtimeTopicSubscriptions.SetConnected` | backend_service/src/route/realtimeTopicSubscriptions.ts:26-32 | A new generation, nothing applied, and the loop is started or asked to run again |
| `RealtimeSubscriptions.RealtimeTopicSubscriptions.SetDesired` | backend_service/src/route/realtimeTopicSubscriptions.ts:34-41 | The device is wanted or not, and the loop is started or asked to run again |
| `RealtimeSubscriptions.RealtimeTopicSubscriptions.Schedule` | backend_service/src/route/realtimeTopicSubscriptions.ts:55-66 | A loop that has not been cleared is only asked to run again |
| `RealtimeSubscriptions.RealtimeTopicSubscriptions.Begin` | backend_service/src/route/realtimeTopicSubscriptions.ts:68-125 | One reconcileOnce up to its first suspension: an operation is started exactly when connected and the sets differ |
| `RealtimeSubscriptions.RealtimeTopicSubscriptions.Resume` | backend_service/src/route/realtimeTopicSubscriptions.ts:81-125 | An answer of an earlier generation changes nothing; applied stays the effect of the operations acknowledged in the current generation; a success brings the measure down |
| `RealtimeSubscriptions.RealtimeTopicSubscriptions.NeedsReconcile` | backend_service/src/route/realtimeTopicSubscriptions.ts:75-79 | The size test and the inclusion test together are inequality of the sets |
| `RealtimeSubscriptions.RealtimeTopicSubscriptions.Decide` | backend_service/src/route/realtimeTopicSubscriptions.ts:68-73 | The loop ends exactly on a failed operation, or converged with no run requested; without a failed operation it ends disconnected or with equal sets |
| `RealtimeSubscriptions.RealtimeTopicSubscriptions.RunToEnd` | backend_service/src/route/realtimeTopicSubscriptions.ts:68-73 | With the environment quiet and operations succeeding the loop ends, and connected means applied equals desired |
| `RealtimeSubscriptions.UnsubscribedIsLess` | backend_service/src/route/realtimeTopicSubscriptions.ts:84-102 | An acknowledged unsubscription brings the measure down, even one no longer wanted |
| `RealtimeSubscriptions.SubscribedIsLess` | backend_service/src/route/realtimeTopicSubscriptions.ts:104-122 | The same for a subscription |
| `RealtimeSubscriptions.InterestsInGap` | backend_service/src/route/realtimeTopicSubscriptions.ts:55-66 | However interest changes between the end of the loop and the clearing of its promise, the controller is converged afterwards exactly when disconnected or when the changes together ask for what is applied |
| `RealtimeSubscriptions.InterestInGap` | backend_service/src/route/realtimeTopicSubscriptions.ts:34-41 | One change in that gap is harmless exactly when disconnected or when it asks for what is applied |
| `RealtimeSubscriptions.ConnectionInGap` | backend_service/src/route/realtimeTopicSubscriptions.ts:26-32 | A connection notification in that gap is harmless exactly when it disconnects or nothing is desired |
| `RealtimeSubscriptions.LateInterestIsMissed` | backend_service/src/route/realtimeTopicSubscriptions.ts:55-66 | Such a device exists: connected, idle, no error, desired and not subscribed |
| `MqttPublishing.TrackedKeepsIffUnused` | route_service/src/adapters/mqtt/mqtt_client.cpp:617-643 | Tracking a publication keeps the token and packet id maps inverse, bounded and apart from the untracked ids if and only if the packet id is unused |
| `MqttPublishing.UntrackedKeepsIffNotTracked` | route_service/src/adapters/mqtt/mqtt_client.cpp:645-679 | A publication nobody waits for keeps them so if and only if its packet id is not a tracked one |
| `MqttPublishing.MqttClient.PublishCommandSet` | route_service/src/adapters/mqtt/mqtt_client.cpp:617-643 | Accepted exactly when configured, not in flight, within capacity and taken by the library |
| `MqttPublishing.MqttClient.PublishUntracked` | route_service/src/adapters/mqtt/mqtt_client.cpp:645-679 | The packet id is remembered as one nobody waits for |
| `MqttPublishing.MqttClient.HandlePublish` | route_service/src/adapters/mqtt/mqtt_client.cpp:734-768 | Exactly one completion for a tracked packet id, none otherwise |
| `MqttPublishing.MqttClient.HandleDisconnect` | route_service/src/adapters/mqtt/mqtt_client.cpp:705-732 | Afterwards every acceptance of a token has had exactly one completion |
| `MqttTopics.ParserInvertsForm` | route_service/src/core/command/source_request.cpp:135-167 | Each inbound parser accepts exactly the topics of its form with a valid id, and returns that id |
| `MqttTopics.DeviceTopicInverts` | route_service/src/core/mqtt_topic/device_topic.cpp:18-42 | Cutting at the first two slashes accepts exactly the registration and telemetry topics |
| `MqttTopics.ParsersAreSeparate` | route_service/src/core/runtime/command_service.cpp:298-316 | No topic is accepted by two parsers |
| `MqttTopics.NothingComesBack` | route_service/src/core/mqtt_topic/device_topic.cpp:52-60 | Nothing the service publishes is accepted by an inbound parser |
| `CommandId.FormatUuidV4` | route_service/src/core/command/command_state.cpp:140-154 | The formatted bytes, accepted by the shape check |
| `CommandId.CheckUuidV4Shape` | route_service/src/core/command/command_validation.hpp:9-23 | The scan decides the shape |
| `CommandId.DecodeFormat` | route_service/src/core/command/command_state.cpp:140-154 | Decoding the text gives the input back except for the six version and variant bits |
| `CommandId.AcceptedIsFormatted` | route_service/src/core/command/command_validation.hpp:9-23 | The check accepts exactly what the formatter produces |
| `TelemetryPaths.FrameReadsBack` | frontend/src/utils/flightDashboard.ts:344-362 | Reading any path of the frame returns that entry's value |
| `TelemetryPaths.FramePathsDistinct` | frontend/src/utils/telemetryFrame.ts:89-108 | No path of the frame occurs twice |
| `TelemetryPaths.FrameListsTheLeaves` | frontend/src/utils/telemetryFrame.ts:89-108 | The frame lists exactly its leaves and empty containers, each with its path and value, an empty `telemetry` object excepted |
| `TelemetryPaths.FrameIsComplete` | frontend/src/utils/telemetryFrame.ts:89-108 | It has as many entries as leaves and empty containers if and only if `telemetry` is not an empty object |
| `TelemetryPaths.OneEntryPerLeaf` | frontend/src/utils/telemetryFrame.ts:147-160 | One entry per leaf or empty container |
| `TelemetryPaths.FlattenFinds` | frontend/src/utils/telemetryFrame.ts:147-160 | Every entry's path continues the given one, and walking on finds the entry's value |
| `TelemetryPaths.FlattenDistinct` | frontend/src/utils/telemetryFrame.ts:147-160 | Paths of one value are pairwise distinct |
| `TelemetryPaths.PartsOfPath` | frontend/src/utils/flightDashboard.ts:348-348 | Taking a written path apart gives the names and numerals it was written from |
| `TelemetryPaths.BuildTelemetryFrameGroups` | frontend/src/utils/telemetryFrame.ts:89-108 | The loop builds the groups of the specification |
| `TelemetryPaths.ReadFlightValue` | frontend/src/utils/flightDashboard.ts:344-362 | The loop follows the parts of the path |

## Left out

- DevicePipelineTheorems.NoFlaggedChangeIsLost: devices one of whose writes was refused for good, cancelled or dropped are excepted; `OnlyRefusalsLose` lists how a device gets there.
- DevicePipelineTheorems.OutstandingIsExact: the counter is off by the refused provisioned records, as in the code.
- RealtimeSubscriptions.RealtimeTopicSubscriptions.Decide: convergence is promised where the loop ends; a call in the gap before its promise is cleared is missed, as in the code.
- SQL text, connections, libmosquitto, Fastify, React, files, configuration, logging: only the atomic table steps and the callbacks remain.
- `DescribeTarget`, `DescribeCommand`, `Inform`, `Diagnose`, rate limits, the cache of completed commands and the pending status logs: they only make messages for people.
- Parsing of JSON requests and ACKs, `ParseParameters`, `ParseControlParameters`, `BuildDeviceConfigSet`, `BuildDeviceControlSet`: field by field checks; a parsed request, ACK or report is the input.
- ACK documents: an ACK is its source, command type and record; the JSON fields built from them are not modelled.
- Which resolution, gate reason, fresh id or publisher verdict a step gets is a parameter; `TargetResolution` specifies the resolution by itself.
- Timeouts always happening: the recovery latch is also the timeout latch (`command_service.cpp:629,798`), so an overdue command may stay; a timeout is only a step that may be taken.
- Provisioning always completing: an outage on the command side clears queued provisionings without a result (`postgres_worker.cpp:195-203`).
- Results after `Close`, `CancelOutstandingWork` of the command service, `DrainDeviceRuntime`, `WaitFor...`: the shutdown sequence is not modelled beyond closing the worker and cancelling device work.
- Replay of a buffered early ACK when convergence finds the row already at the desired status: the code skips it (`command_service.cpp:974-977`), and so does the model.
- `last_seen_at` is stored with the status but not compared: plain telemetry of an online device does not flag it.
- Iteration order of hash maps and sets: any order; JavaScript's insertion order is one of them.
- The broker's view of a timed-out operation: subscription properties speak of acknowledged operations.
- Object property names that JavaScript inherits, and path numerals that are not plain digits, read as undefined here.
- Wrap-around of 64-bit counters and revisions, and of the unsigned outstanding counter below zero, is not modelled; the counter is an integer.
- `MqttPublishing.MqttClient.constructor`: publishing is configured once, before anything is in flight; a later reconfiguration would drop tokens without a completion.
- `BoundedQueue`, `RateLimiter`, `DeviceDirectory`, migration planning, map projection, dashboard tables: correct but easy, or floating point.
