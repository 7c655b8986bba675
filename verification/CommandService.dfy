/**
 The command business thread as functions on its state: one function per handler of the service,
 with the same branches. The lookups a handler makes in the source catalog and the device registry,
 the generated command id and the device publisher's verdict are parameters (`gate`, `Answers`).

 `sent` records every ACK given to the source publisher, `handed` every call of the device publisher.
 */
module CommandService {
  import opened Wrappers
  import opened Collections
  import opened CommandState
  import opened PostgresWorker

  datatype Body = ConfigBody | ControlBody(command: string) | RejectedBody(error: string)

  /** A source request that carries a request id. */
  datatype Parsed = Parsed(request: string, payload: string, body: Body)

  datatype Context = Context(
    source: string,
    parsed: Parsed,
    kind: CommandType,
    receivedAt: Time,
    deadline: Time,
    record: Option<Record>)

  datatype OperationKind = Find | FindByIdForConvergence | Insert | Transition | Cleanup

  datatype Operation = Operation(kind: OperationKind, context: Context)

  datatype Deferred = Deferred(context: Context, task: Task)

  datatype AckStatus = Applied | AlreadyApplied | Accepted | Progress | Rejected | DeviceTimeout

  datatype DeviceAck = DeviceAck(id: Id, status: AckStatus, command: string, payload: string)

  /** The statuses the two ACK parsers let through. */
  predicate AckBelongs(kind: CommandType, status: AckStatus) {
    match kind
    case Config => status.Applied? || status.AlreadyApplied? || status.Rejected?
    case Control => status.Accepted? || status.Progress? || status.Rejected? || status.DeviceTimeout?
  }

  datatype EarlyAck = EarlyAck(device: string, ack: DeviceAck, receivedAt: Time)

  datatype Message =
    | SourceRequest(source: string, kind: CommandType, receivedAt: Time, parsed: Result<Parsed, string>)
    | AckFromDevice(device: string, kind: CommandType, ack: Option<DeviceAck>)

  datatype SourceAck =
    | Rejection(source: string, kind: CommandType, request: Option<string>, error: string)
    | StatusAck(source: string, kind: CommandType, record: Record)

  datatype Handover = Handover(id: Id, kind: CommandType, source: string, request: string, accepted: bool)

  datatype Resolution = Unresolved(error: string) | Resolved(device: string, online: bool)

  datatype Answers = Answers(freshId: Id, resolution: Resolution, accepted: bool)

  datatype Service = Service(
    capacity: nat,
    configTimeout: nat,
    controlTimeout: nat,
    retention: nat,
    cleanupInterval: nat,
    cleanupBatch: nat,
    nextOperation: nat,
    nextToken: nat,
    operations: map<nat, Operation>,
    publications: map<nat, Context>,
    active: map<Id, Context>,
    recoveryStarted: set<Id>,
    deferred: map<Id, Deferred>,
    early: map<Id, EarlyAck>,
    nextCleanup: Option<Time>,
    outstanding: int,
    databaseAvailable: bool,
    mqttAvailable: bool,
    worker: Worker,
    sent: seq<SourceAck>,
    handed: seq<Handover>)

  // ---------------------------------------------------------------- building blocks

  function TimeoutOf(s: Service, kind: CommandType): nat {
    if kind.Control? then s.controlTimeout else s.configTimeout
  }

  function Submit(s: Service, kind: OperationKind, context: Context, task: Task): (Service, bool) {
    var operation := s.nextOperation;
    var (worker, accepted) := SubmitCommand(s.worker, operation, task);
    var counted := s.(nextOperation := operation + 1);
    if !accepted then (counted, false)
    else
      (counted.(worker := worker,
                operations := s.operations[operation := Operation(kind, context)],
                outstanding := s.outstanding + 1), true)
  }

  function SubmitTransitionOrDefer(s: Service, context: Context, task: Task): Service
    requires task.TransitionCommand?
  {
    var (submitted, accepted) := Submit(s, Transition, context, task);
    if accepted then submitted.(deferred := submitted.deferred - {task.id})
    else
      submitted.(databaseAvailable := false,
                 deferred := submitted.deferred[task.id := Deferred(context, task)])
  }

  function RetryDeferred(s: Service, id: Id): Service
    requires s.deferred != map[] ==> id in s.deferred
    requires id in s.deferred ==> s.deferred[id].task.TransitionCommand? && s.deferred[id].task.id == id
  {
    if !s.databaseAvailable || s.deferred == map[] then s
    else
      var deferred := s.deferred[id];
      var (submitted, accepted) := Submit(s.(deferred := s.deferred - {id}), Transition, deferred.context, deferred.task);
      if accepted then submitted
      else submitted.(databaseAvailable := false, deferred := submitted.deferred[id := deferred])
  }

  function Reject(s: Service, source: string, kind: CommandType, request: Option<string>, error: string): Service {
    s.(sent := s.sent + [Rejection(source, kind, request, error)])
  }

  function PublishAck(s: Service, context: Context): Service {
    if context.record.None? then s
    else s.(sent := s.sent + [StatusAck(context.source, context.kind, context.record.value)])
  }

  /** The record after a decision of the service, and the update that stores it. */
  function Decide(record: Record, status: Status, errorCode: Option<string>, now: Time): Record {
    record.(status := status, errorCode := errorCode, updatedAt := now, completedAt := Some(now))
  }

  /** The device publisher is called with the next token. */
  function CallPublisher(s: Service, context: Context, record: Record, accepted: bool): Service {
    s.(recoveryStarted := s.recoveryStarted + {record.id},
       nextToken := s.nextToken + 1,
       publications := if accepted then s.publications[s.nextToken := context] else s.publications,
       handed := s.handed + [Handover(record.id, context.kind, context.source, record.request, accepted)])
  }

  function PublishRecord(s: Service, context: Context, now: Time, accepted: bool): Service {
    if context.record.None? || context.record.value.target.None? || !s.mqttAvailable ||
       context.parsed.body.RejectedBody? then s
    else
      var record := context.record.value;
      var called := CallPublisher(s, context, record, accepted);
      if accepted then called
      else
        var failed := Decide(record, Failed, Some("mqtt_publish_failed"), now);
        SubmitTransitionOrDefer(called, context.(record := Some(failed)),
          TransitionCommand(record.id, record.status, Failed,
                            Update(failed.errorCode, None, None, Some(now), now)))
  }

  // ---------------------------------------------------------------- source requests

  function HandleMessage(s: Service, message: Message, now: Time, gate: Option<string>): Service {
    match message
    case AckFromDevice(device, kind, ack) =>
      if ack.None? then s else HandleDeviceAck(s, device, ack.value, kind, now)
    case SourceRequest(source, kind, receivedAt, parsed) =>
      if gate.Some? then Reject(s, source, kind, None, gate.value)
      else if parsed.Failure? then Reject(s, source, kind, None, parsed.error)
      else
        var request := Some(parsed.value.request);
        if !s.mqttAvailable then Reject(s, source, kind, request, "mqtt_unavailable")
        else if !s.databaseAvailable then Reject(s, source, kind, request, "database_unavailable")
        else if |s.active| + |s.operations| + |s.publications| >= s.capacity then
          Reject(s, source, kind, request, "server_busy")
        else
          var context := Context(source, parsed.value, kind, receivedAt, receivedAt + TimeoutOf(s, kind), None);
          var (submitted, accepted) := Submit(s, Find, context, FindCommand(source, parsed.value.request));
          if accepted then submitted
          else Reject(submitted, source, kind, request, "database_unavailable")
  }

  // ---------------------------------------------------------------- database results

  /** The row a first request is stored as: pending when it can be delivered, failed otherwise. */
  function NewRecord(context: Context, id: Id, resolution: Resolution): Record {
    var pending := Record(id, context.kind, context.source, context.parsed.request, None, context.parsed.payload,
                          Pending, None, None, context.receivedAt, None, context.receivedAt, None);
    var failed := pending.(status := Failed, completedAt := Some(context.receivedAt));
    if context.parsed.body.RejectedBody? then failed.(errorCode := Some(context.parsed.body.error))
    else
      match resolution
      case Unresolved(error) => failed.(errorCode := Some(error))
      case Resolved(device, online) =>
        if online then pending.(target := Some(device))
        else failed.(target := Some(device), errorCode := Some("target_offline"))
  }

  function HandleFound(s: Service, context: Context, found: Option<Record>, answers: Answers): Service {
    match found
    case Some(existing) =>
      if CompareRequest(existing, context.parsed.payload).Conflict? then
        Reject(s, context.source, context.kind, Some(context.parsed.request), "idempotency_conflict")
      else PublishAck(s, context.(record := Some(existing)))
    case None =>
      var record := NewRecord(context, answers.freshId, answers.resolution);
      Submit(s, Insert, context.(record := Some(record)), InsertCommand(record)).0
  }

  function HandleTransitionConflict(s: Service, context: Context): Service
    requires context.record.Some?
  {
    var (submitted, accepted) := Submit(s, FindByIdForConvergence, context, FindCommandById(context.record.value.id));
    if accepted then submitted else submitted.(databaseAvailable := false)
  }

  function Drop(s: Service, id: Id): Service {
    s.(active := s.active - {id}, recoveryStarted := s.recoveryStarted - {id}, early := s.early - {id})
  }

  function ConvergeAfterConflict(s: Service, context: Context, current: Record): Service {
    if context.record.None? then s
    else
      var desired := context.record.value;
      var seen := context.(record := Some(current));
      if IsTerminal(current.status) then
        var dropped := Drop(s, current.id);
        if current.id in s.active then PublishAck(dropped, seen) else dropped
      else if current.status == desired.status then s.(active := s.active[current.id := seen])
      else if CanTransition(current.status, desired.status) then
        SubmitTransitionOrDefer(s, context,
          TransitionCommand(current.id, current.status, desired.status,
                            Update(desired.errorCode, desired.deviceAck, desired.dispatchedAt, desired.completedAt,
                                   desired.updatedAt)))
      else s.(active := s.active[current.id := seen])
  }

  /** A transition, or an insert that ended the command at once, is acknowledged with the stored row. */
  function HandlePersisted(s: Service, context: Context, record: Record): Service {
    var acked := PublishAck(s, context.(record := Some(record)));
    if IsTerminal(record.status) then Drop(acked, record.id)
    else
      var kept := acked.(active := acked.active[record.id := context.(record := Some(record))]);
      if record.status.Dispatched? && record.id in kept.early then
        var early := kept.early[record.id];
        HandleDeviceAck(kept.(early := kept.early - {record.id}), early.device, early.ack, context.kind, early.receivedAt)
      else kept
  }

  function HandleStored(s: Service, operation: Operation, record: Record, now: Time, accepted: bool): Service {
    var context := operation.context;
    if operation.kind.Insert? && context.record.Some? && context.record.value.id != record.id then
      if CompareRequest(record, context.record.value.payload).Conflict? then
        Reject(s, context.source, context.kind, Some(context.record.value.request), "idempotency_conflict")
      else PublishAck(s, context.(record := Some(record)))
    else if operation.kind.Transition? && context.record.Some? && IsTerminal(context.record.value.status) &&
            !IsTerminal(record.status) && CanTransition(record.status, context.record.value.status) then
      var desired := context.record.value;
      SubmitTransitionOrDefer(s, context,
        TransitionCommand(desired.id, record.status, desired.status,
                          Update(desired.errorCode, desired.deviceAck, None, desired.completedAt, desired.updatedAt)))
    else if operation.kind.Transition? || IsTerminal(record.status) then HandlePersisted(s, context, record)
    else
      var stored := context.(record := Some(record));
      PublishRecord(s.(active := s.active[record.id := stored]), stored, now, accepted)
  }

  function HandleResult(s: Service, operation: nat, value: Value, now: Time, answers: Answers): Service {
    if operation !in s.operations then s
    else
      var op := s.operations[operation];
      var taken := s.(operations := s.operations - {operation}, outstanding := s.outstanding - 1);
      HandleValue(taken, op, value, now, answers)
  }

  function HandleValue(s: Service, op: Operation, value: Value, now: Time, answers: Answers): Service {
    if value.Error? then
      if op.kind.Transition? && value.stateChanged && op.context.record.Some? then
        HandleTransitionConflict(s, op.context)
      else if value.kind.Unavailable? then s.(databaseAvailable := false)
      else s
    else
      match op.kind
      case Cleanup => s
      case FindByIdForConvergence =>
        if value.Found? && value.found.Some? then ConvergeAfterConflict(s, op.context, value.found.value) else s
      case Find => if value.Found? then HandleFound(s, op.context, value.found, answers) else s
      case _ => if value.Stored? then HandleStored(s, op, value.stored, now, answers.accepted) else s
  }

  // ---------------------------------------------------------------- publish completions

  function HandleCompletion(s: Service, token: nat, delivered: bool, now: Time): Service {
    if token !in s.publications then s
    else
      var context := s.publications[token];
      var taken := s.(publications := s.publications - {token});
      if context.record.None? || (delivered && context.record.value.status.Dispatched?) then taken
      else
        var record := context.record.value;
        var (desired, update) :=
          if delivered then
            (record.(status := Dispatched, updatedAt := now, dispatchedAt := Some(now)),
             Update(None, None, Some(now), None, now))
          else if context.kind.Control? then
            (Decide(record, DeliveryUncertain, Some("control_delivery_uncertain"), now),
             Update(Some("control_delivery_uncertain"), None, None, Some(now), now))
          else
            (Decide(record, Failed, Some("mqtt_publish_failed"), now),
             Update(Some("mqtt_publish_failed"), None, None, Some(now), now));
        SubmitTransitionOrDefer(taken, context.(record := Some(desired)),
          TransitionCommand(record.id, record.status, desired.status, update))
  }

  // ---------------------------------------------------------------- device ACKs

  function DesiredStatus(status: AckStatus): Status {
    match status
    case Progress => InProgress
    case Rejected => Failed
    case DeviceTimeout => Timeout
    case _ => Succeeded
  }

  function BufferEarly(s: Service, device: string, ack: DeviceAck, kind: CommandType, now: Time): Service {
    var buffered := s.(early := s.early[ack.id := EarlyAck(device, ack, now)]);
    if ack.id !in s.early then buffered
    else if s.early[ack.id].ack.payload == ack.payload then s
    else
      var incomingTerminal := !ack.status.Progress?;
      var oldTerminal := kind.Control? && !s.early[ack.id].ack.status.Progress?;
      if (!oldTerminal || !incomingTerminal) && (incomingTerminal || !oldTerminal) then buffered else s
  }

  /** A control command's ACK that ends it. */
  predicate IsFinalAck(kind: CommandType, ack: DeviceAck) {
    kind.Control? && !ack.status.Progress?
  }

  /**
   Which ACK waits: the first one, until a different one arrives; a final control ACK is never displaced,
   least of all by progress. Other commands' ACKs are left alone.
   */
  lemma EarlyAckSurvives(s: Service, device: string, ack: DeviceAck, kind: CommandType, now: Time)
    ensures var after := BufferEarly(s, device, ack, kind, now);
            && ack.id in after.early
            && (ack.id !in s.early ==> after.early[ack.id] == EarlyAck(device, ack, now))
            && (ack.id in s.early && IsFinalAck(kind, s.early[ack.id].ack) ==> after == s)
            && (ack.id in s.early && s.early[ack.id].ack.payload == ack.payload ==> after == s)
            && (ack.id in s.early && !IsFinalAck(kind, s.early[ack.id].ack) && s.early[ack.id].ack.payload != ack.payload ==>
                  after.early[ack.id] == EarlyAck(device, ack, now))
            && (ack.id in s.early && IsFinalAck(kind, s.early[ack.id].ack) ==> IsFinalAck(kind, after.early[ack.id].ack))
            && (forall other :: other != ack.id ==> Lookup(after.early, other) == Lookup(s.early, other))
            && after == s.(early := after.early)
  {
  }

  /** The record the ACK asks to store, and its task. */
  function AckedRecord(record: Record, ack: DeviceAck, now: Time): Record {
    var desired := DesiredStatus(ack.status);
    record.(status := desired, deviceAck := Some(ack.payload), updatedAt := now,
            completedAt := if IsTerminal(desired) then Some(now) else None,
            errorCode := if desired.Failed? then Some("device_rejected")
                         else if desired.Timeout? then Some("device_timeout")
                         else record.errorCode)
  }

  function AckTask(record: Record, ack: DeviceAck, now: Time): Task {
    var acked := AckedRecord(record, ack, now);
    TransitionCommand(record.id, record.status, acked.status,
                      Update(acked.errorCode, acked.deviceAck, None, acked.completedAt, now))
  }

  /** The active command an ACK belongs to, if it does. */
  predicate AckConcerns(s: Service, device: string, ack: DeviceAck, kind: CommandType) {
    ack.id in s.active &&
    var context := s.active[ack.id];
    context.record.Some? && context.record.value.target == Some(device) && context.kind == kind &&
    (kind.Control? ==> context.parsed.body == ControlBody(ack.command))
  }

  function HandleDeviceAck(s: Service, device: string, ack: DeviceAck, kind: CommandType, now: Time): Service {
    if !AckConcerns(s, device, ack, kind) then s
    else
      var context := s.active[ack.id];
      var record := context.record.value;
      if record.status.Pending? then BufferEarly(s, device, ack, kind, now)
      else if !record.status.Dispatched? && !record.status.InProgress? then s
      else
        var deadline := if ack.status.Progress? then now + s.controlTimeout else context.deadline;
        SubmitTransitionOrDefer(s, context.(record := Some(AckedRecord(record, ack, now)), deadline := deadline),
                                AckTask(record, ack, now))
  }

  // ---------------------------------------------------------------- periodic work

  function CleanupContext(now: Time): Context {
    Context("", Parsed("", "", RejectedBody("cleanup")), Config, now, now, None)
  }

  function ScheduleCleanup(s: Service, now: Time): Service {
    if s.nextCleanup.None? then s.(nextCleanup := Some(now + s.cleanupInterval))
    else if now < s.nextCleanup.value then s
    else
      var submitted :=
        if !CleanupPending(s.operations) && s.databaseAvailable then
          Submit(s, Cleanup, CleanupContext(now), CleanupCommands(now - s.retention, s.cleanupBatch)).0
        else s;
      submitted.(nextCleanup := Some(now + s.cleanupInterval))
  }

  predicate CleanupDue(nextCleanup: Option<Time>, now: Time) {
    nextCleanup.Some? && now >= nextCleanup.value
  }

  predicate CleanupPending(operations: map<nat, Operation>) {
    exists o :: o in operations && operations[o].kind.Cleanup?
  }

  lemma SubmissionAdds(s: Service, kind: OperationKind, context: Context, task: Task)
    ensures var (after, accepted) := Submit(s, kind, context, task);
            && accepted == SubmitCommand(s.worker, s.nextOperation, task).1
            && after.operations == (if accepted then s.operations[s.nextOperation := Operation(kind, context)] else s.operations)
            && after.nextCleanup == s.nextCleanup
  {
    hide SubmitCommand;
  }

  /**
   A cleanup is only added when it is due, the database available and none outstanding, and then it is
   one; a due date always lies ahead afterwards, and moves only when there was none or it had passed.
   */
  lemma CleanupIsScheduled(s: Service, now: Time)
    ensures var after := ScheduleCleanup(s, now);
            && (after.operations != s.operations ==>
                  CleanupDue(s.nextCleanup, now) && s.databaseAvailable && !CleanupPending(s.operations))
            && (forall o :: o in after.operations && o != s.nextOperation ==>
                  o in s.operations && after.operations[o] == s.operations[o])
            && (after.operations != s.operations ==> after.operations[s.nextOperation].kind.Cleanup?)
            && (after.nextCleanup == if s.nextCleanup.None? || CleanupDue(s.nextCleanup, now)
                                     then Some(now + s.cleanupInterval) else s.nextCleanup)
  {
    SubmissionAdds(s, Cleanup, CleanupContext(now), CleanupCommands(now - s.retention, s.cleanupBatch));
    hide SubmitCommand, Submit, CleanupPending;
  }

  /** One command of the timeout and recovery scan. */
  function ScanOne(s: Service, id: Id, now: Time, online: bool, accepted: bool): Service {
    if id !in s.active || s.active[id].record.None? then s
    else
      var context := s.active[id];
      var record := context.record.value;
      if now >= context.deadline then
        if id in s.recoveryStarted then s
        else
          var errorCode := Some(if context.kind.Control? then "control_timeout" else "command_timeout");
          SubmitTransitionOrDefer(
            s.(recoveryStarted := s.recoveryStarted + {id}),
            context.(record := Some(Decide(record, Timeout, errorCode, now))),
            TransitionCommand(id, record.status, Timeout, Update(errorCode, None, record.dispatchedAt, Some(now), now)))
      else if context.kind.Control? || !s.mqttAvailable || id in s.recoveryStarted || record.target.None? || !online then s
      else PublishRecord(s.(recoveryStarted := s.recoveryStarted + {id}), context, now, accepted)
  }

  /** Whether the target of an active command is online. */
  predicate TargetIn(s: Service, id: Id, online: set<string>) {
    id in s.active && s.active[id].record.Some? && s.active[id].record.value.target.Some? &&
    s.active[id].record.value.target.value in online
  }

  function ScanEach(s: Service, ids: seq<Id>, now: Time, online: set<string>, accepts: set<Id>): Service
    decreases ids
  {
    if ids == [] then s
    else ScanEach(ScanOne(s, ids[0], now, TargetIn(s, ids[0], online), ids[0] in accepts), ids[1..], now, online, accepts)
  }

  lemma ScanNothing(s: Service, now: Time, online: set<string>, accepts: set<Id>)
    ensures ScanEach(s, [], now, online, accepts) == s
  {
  }

  lemma {:induction false} ScanEachAppend(s: Service, ids: seq<Id>, id: Id, now: Time, online: set<string>, accepts: set<Id>)
    ensures var before := ScanEach(s, ids, now, online, accepts);
            ScanEach(s, ids + [id], now, online, accepts) == ScanOne(before, id, now, TargetIn(before, id, online), id in accepts)
    decreases ids
  {
    if ids != [] {
      assert (ids + [id])[1..] == ids[1..] + [id];
      hide ScanOne;
      ScanEachAppend(ScanOne(s, ids[0], now, TargetIn(s, ids[0], online), ids[0] in accepts), ids[1..], id, now, online,
                     accepts);
    }
  }

  function SetMqttAvailable(s: Service, available: bool): Service {
    s.(mqttAvailable := available,
       recoveryStarted := if available && !s.mqttAvailable then {} else s.recoveryStarted)
  }

  function SetDatabaseAvailable(s: Service, available: bool): Service {
    s.(databaseAvailable := available)
  }

  /** A target came online: its commands may be scanned for recovery again. */
  function TargetOnline(s: Service, device: string): Service {
    s.(recoveryStarted := set id | id in s.recoveryStarted &&
         !(id in s.active && s.active[id].record.Some? && s.active[id].record.value.target == Some(device)))
  }

  // ---------------------------------------------------------------- start

  /** A stored command together with how its source and payload read at start-up. */
  datatype Loaded = Loaded(record: Record, sourceKnown: bool, parsed: Parsed)

  function LoadOne(s: Service, loaded: Loaded): Service {
    var record := loaded.record;
    if !loaded.sourceKnown || IsTerminal(record.status) then s
    else
      var base := if record.status.InProgress? then record.updatedAt else record.createdAt;
      var context := Context(record.source, loaded.parsed, record.kind, record.createdAt,
                             base + TimeoutOf(s, record.kind), Some(record));
      s.(active := s.active[record.id := context])
  }

  function LoadEach(s: Service, commands: seq<Loaded>): Service
    decreases commands
  {
    if commands == [] then s else LoadEach(LoadOne(s, commands[0]), commands[1..])
  }

  function LoadActive(s: Service, commands: seq<Loaded>): Service {
    if |commands| > s.capacity then s else LoadEach(s, commands)
  }

  // ---------------------------------------------------------------- one round of the business thread

  /** What the source catalog, the directory, the id generator and the publisher would answer in a round. */
  datatype Surroundings = Surroundings(
    answers: nat -> Answers,
    gate: Message -> Option<string>,
    online: set<string>,
    accepts: set<Id>)

  /** The queues emptied: database results before publish completions before messages. */
  function Drained(s: Service, results: seq<(nat, Value)>, completions: seq<(nat, bool)>, messages: seq<Message>, now: Time,
                   surroundings: Surroundings): Service
    decreases |results| + |completions| + |messages|
  {
    if results != [] then
      var (operation, value) := results[0];
      Drained(HandleResult(s, operation, value, now, surroundings.answers(operation)), results[1..], completions, messages,
              now, surroundings)
    else if completions != [] then
      Drained(HandleCompletion(s, completions[0].0, completions[0].1, now), [], completions[1..], messages, now, surroundings)
    else if messages != [] then
      Drained(HandleMessage(s, messages[0], now, surroundings.gate(messages[0])), [], [], messages[1..], now, surroundings)
    else s
  }

  lemma DrainedUnfolds(s: Service, results: seq<(nat, Value)>, completions: seq<(nat, bool)>, messages: seq<Message>,
                       now: Time, surroundings: Surroundings)
    ensures Drained(s, results, completions, messages, now, surroundings) ==
            if results != [] then
              Drained(HandleResult(s, results[0].0, results[0].1, now, surroundings.answers(results[0].0)), results[1..],
                      completions, messages, now, surroundings)
            else if completions != [] then
              Drained(HandleCompletion(s, completions[0].0, completions[0].1, now), [], completions[1..], messages, now,
                      surroundings)
            else if messages != [] then
              Drained(HandleMessage(s, messages[0], now, surroundings.gate(messages[0])), [], [], messages[1..], now,
                      surroundings)
            else s
  {
  }

  lemma RetryKeepsActive(s: Service, id: Id)
    requires s.deferred != map[] ==> id in s.deferred
    requires id in s.deferred ==> s.deferred[id].task.TransitionCommand? && s.deferred[id].task.id == id
    ensures RetryDeferred(s, id).active == s.active
  {
  }

  /** The rest of a round: one deferred transition `id` is tried again, then every active command is scanned once. */
  ghost predicate FinishesRound(drained: Service, after: Service, id: Id, order: seq<Id>, now: Time,
                                surroundings: Surroundings) {
    && (drained.deferred != map[] ==> id in drained.deferred)
    && (id in drained.deferred ==>
          drained.deferred[id].task.TransitionCommand? && drained.deferred[id].task.id == id)
    && (forall i, j :: 0 <= i < j < |order| ==> order[i] != order[j])
    && (forall i :: i in order <==> i in drained.active)
    && after == ScanEach(ScheduleCleanup(RetryDeferred(drained, id), now), order, now, surroundings.online,
                         surroundings.accepts)
  }
}
