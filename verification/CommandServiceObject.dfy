/** The command business thread as an object: every handler updates its maps, flags and the worker's FIFO in place. */
module CommandServiceObject {
  import opened Wrappers
  import opened CommandState
  import opened PostgresWorker
  import W = PostgresWorker
  import opened PostgresWorkerObject
  import C = CommandService
  import O = CommandOutcomes

  class CommandService {
    const capacity: nat
    const configTimeout: nat
    const controlTimeout: nat
    const retention: nat
    const cleanupInterval: nat
    const cleanupBatch: nat
    const worker: PostgresWorkerObject.PostgresWorker
    var nextOperation: nat
    var nextToken: nat
    var operations: map<nat, C.Operation>
    var publications: map<nat, C.Context>
    var active: map<Id, C.Context>
    var recoveryStarted: set<Id>
    var deferred: map<Id, C.Deferred>
    var early: map<Id, C.EarlyAck>
    var nextCleanup: Option<Time>
    var outstanding: int
    var databaseAvailable: bool
    var mqttAvailable: bool
    var sent: seq<C.SourceAck>
    var handed: seq<C.Handover>
    var databaseResults: seq<(nat, Value)>
    var completions: seq<(nat, bool)>
    var messages: seq<C.Message>

    function State(): C.Service
      reads this, worker
    {
      C.Service(capacity, configTimeout, controlTimeout, retention, cleanupInterval, cleanupBatch, nextOperation, nextToken,
                operations, publications, active, recoveryStarted, deferred, early, nextCleanup, outstanding,
                databaseAvailable, mqttAvailable, worker.State(), sent, handed)
    }

    /** Deferred tasks are transitions of the command they are filed under, and tokens are handed out once. */
    ghost predicate Valid()
      reads this, worker
    {
      && worker.Valid()
      && (forall id :: id in deferred ==> deferred[id].task.TransitionCommand? && deferred[id].task.id == id)
      && (forall token :: token in publications ==> token < nextToken)
    }

    constructor (worker: PostgresWorkerObject.PostgresWorker, capacity: nat, configTimeout: nat, controlTimeout: nat,
                 retention: nat, cleanupInterval: nat, cleanupBatch: nat)
      requires worker.Valid()
      ensures Valid() && this.worker == worker && this.capacity == capacity
      ensures State() == C.Service(capacity, configTimeout, controlTimeout, retention, cleanupInterval, cleanupBatch, 1, 1,
                                   map[], map[], map[], {}, map[], map[], None, 0, true, true, worker.State(), [], [])
    {
      this.worker, this.capacity := worker, capacity;
      this.configTimeout, this.controlTimeout, this.retention := configTimeout, controlTimeout, retention;
      this.cleanupInterval, this.cleanupBatch := cleanupInterval, cleanupBatch;
      nextOperation, nextToken, outstanding, nextCleanup := 1, 1, 0, None;
      operations, publications, active, recoveryStarted, deferred, early := map[], map[], map[], {}, map[], map[];
      databaseAvailable, mqttAvailable, sent, handed := true, true, [], [];
      databaseResults, completions, messages := [], [], [];
    }

    // -------------------------------------------------------------- building blocks

    method Submit(kind: C.OperationKind, context: C.Context, task: Task) returns (ok: bool)
      requires Valid()
      modifies this`nextOperation, this`operations, this`outstanding
      modifies worker`commands, worker`operations, worker`accepted
      ensures Valid() && (State(), ok) == C.Submit(old(State()), kind, context, task)
    {
      hide LaneOk;
      var operation := nextOperation;
      assert !W.SubmitCommand(worker.State(), operation, task).1 ==>
             W.SubmitCommand(worker.State(), operation, task).0 == worker.State();
      hide W.SubmitCommand;
      nextOperation := nextOperation + 1;
      ok := worker.SubmitCommand(operation, task);
      if !ok {
        return;
      }
      operations := operations[operation := C.Operation(kind, context)];
      outstanding := outstanding + 1;
    }

    method SubmitTransitionOrDefer(context: C.Context, task: Task)
      requires Valid() && task.TransitionCommand?
      modifies this`nextOperation, this`operations, this`outstanding, this`deferred, this`databaseAvailable
      modifies worker`commands, worker`operations, worker`accepted
      ensures Valid() && State() == C.SubmitTransitionOrDefer(old(State()), context, task)
    {
      hide LaneOk, C.Submit;
      var ok := Submit(C.Transition, context, task);
      if ok {
        deferred := deferred - {task.id};
        return;
      }
      databaseAvailable := false;
      deferred := deferred[task.id := C.Deferred(context, task)];
    }

    /** One deferred transition, whichever the map yields first, is tried again. */
    method RetryDeferredTransitions() returns (ghost id: Id)
      requires Valid()
      modifies this`nextOperation, this`operations, this`outstanding, this`deferred, this`databaseAvailable
      modifies worker`commands, worker`operations, worker`accepted
      ensures old(deferred) != map[] ==> id in old(deferred)
      ensures Valid() && State() == C.RetryDeferred(old(State()), id)
    {
      hide LaneOk, C.Submit;
      if deferred == map[] {
        id := "";
        return;
      }
      var first :| first in deferred;
      id := first;
      if databaseAvailable {
        RetryTransition(first);
      }
    }

    method RetryTransition(id: Id)
      requires Valid() && id in deferred && databaseAvailable
      modifies this`nextOperation, this`operations, this`outstanding, this`deferred, this`databaseAvailable
      modifies worker`commands, worker`operations, worker`accepted
      ensures Valid() && State() == C.RetryDeferred(old(State()), id)
    {
      hide LaneOk, C.Submit;
      var node := deferred[id];
      deferred := deferred - {id};
      var ok := Submit(C.Transition, node.context, node.task);
      if !ok {
        databaseAvailable := false;
        deferred := deferred[id := node];
      }
    }

    method Reject(source: string, kind: CommandType, request: Option<string>, error: string)
      modifies this`sent
      ensures sent == old(sent) + [C.Rejection(source, kind, request, error)]
    {
      sent := sent + [C.Rejection(source, kind, request, error)];
    }

    method PublishAck(context: C.Context)
      requires Valid()
      modifies this`sent
      ensures Valid() && State() == C.PublishAck(old(State()), context)
    {
      if context.record.None? {
        return;
      }
      sent := sent + [C.StatusAck(context.source, context.kind, context.record.value)];
    }

    /** The publication is registered first and withdrawn when the publisher refuses. */
    method CallPublisher(context: C.Context, record: Record, accepted: bool)
      requires Valid()
      modifies this`recoveryStarted, this`nextToken, this`publications, this`handed
      ensures Valid() && State() == C.CallPublisher(old(State()), context, record, accepted)
    {
      hide LaneOk;
      recoveryStarted := recoveryStarted + {record.id};
      var token := nextToken;
      nextToken := nextToken + 1;
      publications := publications[token := context];
      handed := handed + [C.Handover(record.id, context.kind, context.source, record.request, accepted)];
      if !accepted {
        publications := publications - {token};
        assert publications == old(publications);
      }
    }

    method PublishRecord(context: C.Context, now: Time, accepted: bool)
      requires Valid()
      modifies this`nextOperation, this`operations, this`outstanding, this`deferred, this`databaseAvailable
      modifies this`recoveryStarted, this`nextToken, this`publications, this`handed
      modifies worker`commands, worker`operations, worker`accepted
      ensures Valid() && State() == C.PublishRecord(old(State()), context, now, accepted)
    {
      hide LaneOk, C.SubmitTransitionOrDefer, C.CallPublisher;
      if context.record.None? || context.record.value.target.None? || !mqttAvailable {
        return;
      }
      if context.parsed.body.RejectedBody? {
        return;
      }
      var record := context.record.value;
      CallPublisher(context, record, accepted);
      if !accepted {
        var failed := record.(status := Failed, errorCode := Some("mqtt_publish_failed"), updatedAt := now,
                              completedAt := Some(now));
        SubmitTransitionOrDefer(context.(record := Some(failed)),
                                TransitionCommand(failed.id, record.status, Failed,
                                                  Update(failed.errorCode, None, None, Some(now), now)));
      }
    }

    // -------------------------------------------------------------- device ACKs

    /** An ACK that arrives before the publication was confirmed waits, unless a better one is there already. */
    method BufferEarly(device: string, ack: C.DeviceAck, kind: CommandType, now: Time)
      requires Valid()
      modifies this`early
      ensures Valid() && State() == C.BufferEarly(old(State()), device, ack, kind, now)
      ensures ack.id in old(early) && C.IsFinalAck(kind, old(early)[ack.id].ack) ==> early == old(early)
      ensures ack.id !in old(early) ||
              (!C.IsFinalAck(kind, old(early)[ack.id].ack) && old(early)[ack.id].ack.payload != ack.payload) ==>
                ack.id in early && early[ack.id] == C.EarlyAck(device, ack, now)
    {
      if ack.id !in early {
        early := early[ack.id := C.EarlyAck(device, ack, now)];
      } else if early[ack.id].ack.payload != ack.payload {
        var incomingTerminal := !ack.status.Progress?;
        var oldTerminal := kind.Control? && !early[ack.id].ack.status.Progress?;
        if !oldTerminal || !incomingTerminal {
          if incomingTerminal || !oldTerminal {
            early := early[ack.id := C.EarlyAck(device, ack, now)];
          }
        }
      }
    }

    method HandleDeviceAck(device: string, ack: C.DeviceAck, kind: CommandType, now: Time)
      requires Valid()
      modifies this`nextOperation, this`operations, this`outstanding, this`deferred, this`databaseAvailable
      modifies this`early
      modifies worker`commands, worker`operations, worker`accepted
      ensures Valid() && State() == C.HandleDeviceAck(old(State()), device, ack, kind, now)
    {
      hide LaneOk, C.SubmitTransitionOrDefer, C.BufferEarly;
      if ack.id !in active || active[ack.id].record.None? || active[ack.id].record.value.target != Some(device) ||
         active[ack.id].kind != kind {
        return;
      }
      var context := active[ack.id];
      if kind.Control? && context.parsed.body != C.ControlBody(ack.command) {
        return;
      }
      var record := context.record.value;
      if record.status.Pending? {
        BufferEarly(device, ack, kind, now);
        return;
      }
      if !record.status.Dispatched? && !record.status.InProgress? {
        return;
      }
      var desired := C.DesiredStatus(ack.status);
      var acked := record.(status := desired, deviceAck := Some(ack.payload), updatedAt := now,
                           completedAt := if IsTerminal(desired) then Some(now) else None);
      if desired.InProgress? {
        context := context.(deadline := now + controlTimeout);
      }
      if desired.Failed? {
        acked := acked.(errorCode := Some("device_rejected"));
      } else if desired.Timeout? {
        acked := acked.(errorCode := Some("device_timeout"));
      }
      assert acked == C.AckedRecord(record, ack, now);
      hide C.AckedRecord;
      context := context.(record := Some(acked));
      SubmitTransitionOrDefer(context, TransitionCommand(record.id, record.status, acked.status,
                                                         Update(acked.errorCode, acked.deviceAck, None, acked.completedAt, now)));
    }

    // -------------------------------------------------------------- source requests

    method HandleMessage(message: C.Message, now: Time, gate: Option<string>)
      requires Valid()
      modifies this`nextOperation, this`operations, this`outstanding, this`deferred, this`databaseAvailable
      modifies this`early, this`sent
      modifies worker`commands, worker`operations, worker`accepted
      ensures Valid() && State() == C.HandleMessage(old(State()), message, now, gate)
    {
      hide LaneOk, C.Submit, C.HandleDeviceAck;
      match message {
        case AckFromDevice(device, kind, ack) =>
          if ack.Some? {
            HandleDeviceAck(device, ack.value, kind, now);
          }
        case SourceRequest(source, kind, receivedAt, parsed) => HandleRequest(source, kind, receivedAt, parsed, gate);
      }
    }

    method HandleRequest(source: string, kind: CommandType, receivedAt: Time, parsed: Result<C.Parsed, string>,
                         gate: Option<string>)
      requires Valid()
      modifies this`nextOperation, this`operations, this`outstanding, this`sent
      modifies worker`commands, worker`operations, worker`accepted
      ensures Valid()
      ensures forall now: Time ::
                State() == C.HandleMessage(old(State()), C.SourceRequest(source, kind, receivedAt, parsed), now, gate)
    {
      hide LaneOk, C.Submit;
      if gate.Some? {
        Reject(source, kind, None, gate.value);
        return;
      }
      if parsed.Failure? {
        Reject(source, kind, None, parsed.error);
        return;
      }
      var request := Some(parsed.value.request);
      if !mqttAvailable {
        Reject(source, kind, request, "mqtt_unavailable");
        return;
      }
      if !databaseAvailable {
        Reject(source, kind, request, "database_unavailable");
        return;
      }
      if |active| + |operations| + |publications| >= capacity {
        Reject(source, kind, request, "server_busy");
        return;
      }
      var timeout := if kind.Control? then controlTimeout else configTimeout;
      var context := C.Context(source, parsed.value, kind, receivedAt, receivedAt + timeout, None);
      var ok := Submit(C.Find, context, FindCommand(source, parsed.value.request));
      if !ok {
        Reject(source, kind, request, "database_unavailable");
      }
    }

    // -------------------------------------------------------------- publish completions

    method HandleCompletion(token: nat, delivered: bool, now: Time)
      requires Valid()
      modifies this`nextOperation, this`operations, this`outstanding, this`deferred, this`databaseAvailable
      modifies this`publications
      modifies worker`commands, worker`operations, worker`accepted
      ensures Valid() && State() == C.HandleCompletion(old(State()), token, delivered, now)
    {
      hide LaneOk, C.SubmitTransitionOrDefer;
      if token !in publications {
        return;
      }
      var context := publications[token];
      publications := publications - {token};
      if context.record.None? {
        return;
      }
      var record := context.record.value;
      var previous := record.status;
      if delivered && previous.Dispatched? {
        return;
      }
      var desired := if delivered then Dispatched else if context.kind.Control? then DeliveryUncertain else Failed;
      record := record.(status := desired, updatedAt := now);
      var update := Update(None, None, None, None, now);
      if delivered {
        record := record.(dispatchedAt := Some(now));
        update := update.(dispatchedAt := Some(now));
      } else {
        var errorCode := if context.kind.Control? then "control_delivery_uncertain" else "mqtt_publish_failed";
        record := record.(errorCode := Some(errorCode), completedAt := Some(now));
        update := update.(errorCode := record.errorCode, completedAt := Some(now));
      }
      SubmitTransitionOrDefer(context.(record := Some(record)), TransitionCommand(record.id, previous, desired, update));
    }

    // -------------------------------------------------------------- database results

    method HandleResult(operation: nat, value: Value, now: Time, answers: C.Answers)
      requires Valid()
      modifies this`nextOperation, this`operations, this`outstanding, this`deferred, this`databaseAvailable
      modifies this`recoveryStarted, this`nextToken, this`publications, this`handed
      modifies this`active, this`early, this`sent
      modifies worker`commands, worker`operations, worker`accepted
      ensures Valid() && State() == C.HandleResult(old(State()), operation, value, now, answers)
    {
      hide LaneOk, C.HandleValue;
      if operation !in operations {
        return;
      }
      var op := operations[operation];
      operations := operations - {operation};
      outstanding := outstanding - 1;
      HandleValue(op, value, now, answers);
    }

    method HandleValue(op: C.Operation, value: Value, now: Time, answers: C.Answers)
      requires Valid()
      modifies this`nextOperation, this`operations, this`outstanding, this`deferred, this`databaseAvailable
      modifies this`recoveryStarted, this`nextToken, this`publications, this`handed
      modifies this`active, this`early, this`sent
      modifies worker`commands, worker`operations, worker`accepted
      ensures Valid() && State() == C.HandleValue(old(State()), op, value, now, answers)
    {
      hide LaneOk, C.HandleStored, C.HandleFound, C.ConvergeAfterConflict, C.HandleTransitionConflict;
      if value.Error? {
        if op.kind.Transition? && value.stateChanged && op.context.record.Some? {
          HandleTransitionConflict(op.context);
        } else if value.kind.Unavailable? {
          databaseAvailable := false;
        }
        return;
      }
      match op.kind {
        case Cleanup =>
        case FindByIdForConvergence =>
          if value.Found? && value.found.Some? {
            ConvergeAfterConflict(op.context, value.found.value);
          }
        case Find =>
          if value.Found? {
            HandleFound(op.context, value.found, answers);
          }
        case Insert =>
          if value.Stored? {
            HandleStored(op, value.stored, now, answers.accepted);
          }
        case Transition =>
          if value.Stored? {
            HandleStored(op, value.stored, now, answers.accepted);
          }
      }
    }

    method HandleFound(context: C.Context, found: Option<Record>, answers: C.Answers)
      requires Valid()
      modifies this`nextOperation, this`operations, this`outstanding, this`sent
      modifies worker`commands, worker`operations, worker`accepted
      ensures Valid() && State() == C.HandleFound(old(State()), context, found, answers)
      ensures found.Some? ==> sent == old(sent) + [O.AnswerTo(context, context.parsed.request, context.parsed.payload, found.value)]
    {
      hide LaneOk, C.Submit;
      if found.Some? {
        var existing := found.value;
        if CompareRequest(existing, context.parsed.payload).Conflict? {
          Reject(context.source, context.kind, Some(context.parsed.request), "idempotency_conflict");
          return;
        }
        PublishAck(context.(record := Some(existing)));
        return;
      }
      var record := Record(answers.freshId, context.kind, context.source, context.parsed.request, None,
                           context.parsed.payload, Pending, None, None, context.receivedAt, None, context.receivedAt, None);
      if context.parsed.body.RejectedBody? {
        record := record.(status := Failed, errorCode := Some(context.parsed.body.error),
                          completedAt := Some(context.receivedAt));
      } else if answers.resolution.Unresolved? {
        record := record.(status := Failed, errorCode := Some(answers.resolution.error),
                          completedAt := Some(context.receivedAt));
      } else {
        record := record.(target := Some(answers.resolution.device));
        if !answers.resolution.online {
          record := record.(status := Failed, errorCode := Some("target_offline"), completedAt := Some(context.receivedAt));
        }
      }
      var _ := Submit(C.Insert, context.(record := Some(record)), InsertCommand(record));
    }

    method HandleTransitionConflict(context: C.Context)
      requires Valid() && context.record.Some?
      modifies this`nextOperation, this`operations, this`outstanding, this`databaseAvailable
      modifies worker`commands, worker`operations, worker`accepted
      ensures Valid() && State() == C.HandleTransitionConflict(old(State()), context)
    {
      hide LaneOk, C.Submit;
      var ok := Submit(C.FindByIdForConvergence, context, FindCommandById(context.record.value.id));
      if !ok {
        databaseAvailable := false;
      }
    }

    method Drop(id: Id)
      requires Valid()
      modifies this`active, this`recoveryStarted, this`early
      ensures Valid() && State() == C.Drop(old(State()), id)
    {
      active := active - {id};
      recoveryStarted := recoveryStarted - {id};
      early := early - {id};
    }

    method ConvergeAfterConflict(context: C.Context, current: Record)
      requires Valid()
      modifies this`nextOperation, this`operations, this`outstanding, this`deferred, this`databaseAvailable
      modifies this`recoveryStarted, this`nextToken, this`publications, this`handed
      modifies this`active, this`early, this`sent
      modifies worker`commands, worker`operations, worker`accepted
      ensures Valid() && State() == C.ConvergeAfterConflict(old(State()), context, current)
    {
      hide LaneOk, C.SubmitTransitionOrDefer, C.PublishAck, C.Drop;
      if context.record.None? {
        return;
      }
      var desired := context.record.value;
      var seen := context.(record := Some(current));
      var wasActive := current.id in active;
      if IsTerminal(current.status) {
        Drop(current.id);
        if wasActive {
          PublishAck(seen);
        }
        return;
      }
      if current.status == desired.status {
        active := active[current.id := seen];
        return;
      }
      if CanTransition(current.status, desired.status) {
        var update := Update(desired.errorCode, desired.deviceAck, desired.dispatchedAt, desired.completedAt,
                             desired.updatedAt);
        SubmitTransitionOrDefer(seen.(record := Some(desired)),
                                TransitionCommand(current.id, current.status, desired.status, update));
        return;
      }
      active := active[current.id := seen];
    }

    method HandlePersisted(context: C.Context, record: Record)
      requires Valid()
      modifies this`nextOperation, this`operations, this`outstanding, this`deferred, this`databaseAvailable
      modifies this`recoveryStarted, this`nextToken, this`publications, this`handed
      modifies this`active, this`early, this`sent
      modifies worker`commands, worker`operations, worker`accepted
      ensures Valid() && State() == C.HandlePersisted(old(State()), context, record)
    {
      hide LaneOk, C.HandleDeviceAck, C.Drop;
      var stored := context.(record := Some(record));
      PublishAck(stored);
      if IsTerminal(record.status) {
        Drop(record.id);
        return;
      }
      active := active[record.id := stored];
      if record.status.Dispatched? && record.id in early {
        var waiting := early[record.id];
        early := early - {record.id};
        HandleDeviceAck(waiting.device, waiting.ack, context.kind, waiting.receivedAt);
      }
    }

    /** The row belongs to an earlier request with the same id: the same one is acknowledged, another one refused. */
    method AnswerRepeated(context: C.Context, record: Record)
      requires Valid() && context.record.Some?
      modifies this`sent
      ensures Valid()
      ensures O.Tells(old(State()), State(),
                      O.AnswerTo(context, context.record.value.request, context.record.value.payload, record))
    {
      hide LaneOk;
      if CompareRequest(record, context.record.value.payload).Conflict? {
        Reject(context.source, context.kind, Some(context.record.value.request), "idempotency_conflict");
        return;
      }
      PublishAck(context.(record := Some(record)));
    }

    method HandleStored(op: C.Operation, record: Record, now: Time, accepted: bool)
      requires Valid()
      modifies this`nextOperation, this`operations, this`outstanding, this`deferred, this`databaseAvailable
      modifies this`recoveryStarted, this`nextToken, this`publications, this`handed
      modifies this`active, this`early, this`sent
      modifies worker`commands, worker`operations, worker`accepted
      ensures Valid() && State() == C.HandleStored(old(State()), op, record, now, accepted)
    {
      hide LaneOk, C.HandlePersisted, C.SubmitTransitionOrDefer, C.PublishRecord, C.PublishAck, C.Reject;
      var context := op.context;
      if op.kind.Insert? && context.record.Some? && context.record.value.id != record.id {
        O.ForeignInsertOutcome(old(State()), op, record, now, accepted);
        AnswerRepeated(context, record);
        return;
      }
      if op.kind.Transition? && context.record.Some? && IsTerminal(context.record.value.status) &&
         !IsTerminal(record.status) && CanTransition(record.status, context.record.value.status) {
        var desired := context.record.value;
        var update := Update(desired.errorCode, desired.deviceAck, None, desired.completedAt, desired.updatedAt);
        SubmitTransitionOrDefer(context, TransitionCommand(desired.id, record.status, desired.status, update));
        return;
      }
      if op.kind.Transition? || IsTerminal(record.status) {
        HandlePersisted(context, record);
        return;
      }
      var stored := context.(record := Some(record));
      active := active[record.id := stored];
      PublishRecord(stored, now, accepted);
    }

    // -------------------------------------------------------------- periodic work

    method ScheduleCleanup(now: Time)
      requires Valid()
      modifies this`nextOperation, this`operations, this`outstanding, this`nextCleanup
      modifies worker`commands, worker`operations, worker`accepted
      ensures Valid() && State() == C.ScheduleCleanup(old(State()), now)
      ensures operations != old(operations) ==>
                C.CleanupDue(old(nextCleanup), now) && old(databaseAvailable) && !C.CleanupPending(old(operations))
      ensures nextCleanup == if old(nextCleanup).None? || C.CleanupDue(old(nextCleanup), now)
                             then Some(now + cleanupInterval) else old(nextCleanup)
    {
      C.CleanupIsScheduled(State(), now);
      hide LaneOk, C.Submit;
      if nextCleanup.None? {
        nextCleanup := Some(now + cleanupInterval);
        return;
      }
      if now < nextCleanup.value {
        return;
      }
      var pending := exists o | o in operations :: operations[o].kind.Cleanup?;
      if !pending && databaseAvailable {
        var _ := Submit(C.Cleanup, C.CleanupContext(now), CleanupCommands(now - retention, cleanupBatch));
      }
      nextCleanup := Some(now + cleanupInterval);
    }

    method ScanOne(id: Id, now: Time, online: bool, accepted: bool)
      requires Valid()
      modifies this`nextOperation, this`operations, this`outstanding, this`deferred, this`databaseAvailable
      modifies this`recoveryStarted, this`nextToken, this`publications, this`handed
      modifies worker`commands, worker`operations, worker`accepted
      ensures Valid() && State() == C.ScanOne(old(State()), id, now, online, accepted)
    {
      hide LaneOk, C.SubmitTransitionOrDefer, C.PublishRecord;
      if id !in active || active[id].record.None? {
        return;
      }
      var context := active[id];
      var record := context.record.value;
      if now >= context.deadline {
        if id !in recoveryStarted {
          recoveryStarted := recoveryStarted + {id};
          var errorCode := Some(if context.kind.Control? then "control_timeout" else "command_timeout");
          var timedOut := record.(status := Timeout, errorCode := errorCode, updatedAt := now, completedAt := Some(now));
          SubmitTransitionOrDefer(context.(record := Some(timedOut)),
                                  TransitionCommand(id, record.status, Timeout,
                                                    Update(errorCode, None, timedOut.dispatchedAt, Some(now), now)));
        }
        return;
      }
      if context.kind.Control? || !mqttAvailable || id in recoveryStarted || record.target.None? || !online {
        return;
      }
      recoveryStarted := recoveryStarted + {id};
      PublishRecord(context, now, accepted);
    }

    /** The cleanup, then every active command once, in the order the map yields them. */
    method ProcessTimeoutsAndRecovery(now: Time, online: set<string>, accepts: set<Id>) returns (ghost order: seq<Id>)
      requires Valid()
      modifies this`nextOperation, this`operations, this`outstanding, this`deferred, this`databaseAvailable
      modifies this`recoveryStarted, this`nextToken, this`publications, this`handed, this`nextCleanup
      modifies worker`commands, worker`operations, worker`accepted
      ensures forall i, j :: 0 <= i < j < |order| ==> order[i] != order[j]
      ensures forall id :: id in order <==> id in old(active)
      ensures Valid() && State() == C.ScanEach(C.ScheduleCleanup(old(State()), now), order, now, online, accepts)
    {
      hide LaneOk, C.ScheduleCleanup, C.ScanOne, C.ScanEach;
      ScheduleCleanup(now);
      ghost var start := State();
      order := [];
      C.ScanNothing(start, now, online, accepts);
      var ids := active.Keys;
      while ids != {}
        invariant Valid() && ids <= active.Keys
        invariant State() == C.ScanEach(start, order, now, online, accepts)
        invariant forall i, j :: 0 <= i < j < |order| ==> order[i] != order[j]
        invariant forall id :: id in order <==> id in old(active) && id !in ids
        decreases ids
      {
        var id :| id in ids;
        ids := ids - {id};
        C.ScanEachAppend(start, order, id, now, online, accepts);
        order := order + [id];
        var target := active[id].record;
        ScanOne(id, now, target.Some? && target.value.target.Some? && target.value.target.value in online, id in accepts);
      }
    }

    // -------------------------------------------------------------- outside signals and start

    method SetDatabaseAvailable(available: bool)
      requires Valid()
      modifies this`databaseAvailable
      ensures Valid() && State() == C.SetDatabaseAvailable(old(State()), available)
    {
      databaseAvailable := available;
    }

    method SetMqttAvailable(available: bool)
      requires Valid()
      modifies this`mqttAvailable, this`recoveryStarted
      ensures Valid() && State() == C.SetMqttAvailable(old(State()), available)
    {
      var was := mqttAvailable;
      mqttAvailable := available;
      if available && !was {
        recoveryStarted := {};
      }
    }

    /** The commands of a device that came online may be recovered again, and the scan runs at once. */
    method OnTargetOnline(device: string, now: Time, online: set<string>, accepts: set<Id>) returns (ghost order: seq<Id>)
      requires Valid()
      modifies this`nextOperation, this`operations, this`outstanding, this`deferred, this`databaseAvailable
      modifies this`recoveryStarted, this`nextToken, this`publications, this`handed, this`nextCleanup
      modifies worker`commands, worker`operations, worker`accepted
      ensures Valid()
      ensures State() == C.ScanEach(C.ScheduleCleanup(C.TargetOnline(old(State()), device), now), order, now, online, accepts)
    {
      hide LaneOk, C.ScheduleCleanup, C.ScanEach;
      var ids := active.Keys;
      while ids != {}
        invariant Valid() && ids <= active.Keys && State() == old(State()).(recoveryStarted := recoveryStarted)
        invariant forall id :: id in recoveryStarted <==>
                    id in old(recoveryStarted) &&
                    !(id in active && id !in ids && active[id].record.Some? && active[id].record.value.target == Some(device))
        decreases ids
      {
        var id :| id in ids;
        ids := ids - {id};
        if active[id].record.Some? && active[id].record.value.target == Some(device) {
          recoveryStarted := recoveryStarted - {id};
        }
      }
      assert recoveryStarted == C.TargetOnline(old(State()), device).recoveryStarted;
      order := ProcessTimeoutsAndRecovery(now, online, accepts);
    }

    method LoadActive(commands: seq<C.Loaded>)
      requires Valid()
      modifies this`active
      ensures Valid() && State() == C.LoadActive(old(State()), commands)
    {
      hide LaneOk;
      if |commands| > capacity {
        return;
      }
      var i := 0;
      while i < |commands|
        invariant Valid() && 0 <= i <= |commands|
        invariant C.LoadEach(old(State()), commands) == C.LoadEach(State(), commands[i..])
      {
        var loaded := commands[i];
        assert commands[i..][0] == loaded && commands[i..][1..] == commands[i + 1..];
        LoadOne(loaded);
        i := i + 1;
      }
    }

    method LoadOne(loaded: C.Loaded)
      requires Valid()
      modifies this`active
      ensures Valid() && State() == C.LoadOne(old(State()), loaded)
    {
      hide LaneOk;
      var record := loaded.record;
      if !loaded.sourceKnown || IsTerminal(record.status) {
        return;
      }
      var timeout := if record.kind.Control? then controlTimeout else configTimeout;
      var base := if record.status.InProgress? then record.updatedAt else record.createdAt;
      active := active[record.id := C.Context(record.source, loaded.parsed, record.kind, record.createdAt, base + timeout,
                                              Some(record))];
    }

    // -------------------------------------------------------------- one round

    method NextResult(now: Time, surroundings: C.Surroundings)
      requires Valid() && databaseResults != []
      modifies this`nextOperation, this`operations, this`outstanding, this`deferred, this`databaseAvailable
      modifies this`recoveryStarted, this`nextToken, this`publications, this`handed
      modifies this`active, this`early, this`sent
      modifies worker`commands, worker`operations, worker`accepted
      modifies this`databaseResults
      ensures Valid() && databaseResults == old(databaseResults)[1..]
      ensures var (operation, value) := old(databaseResults)[0];
              State() == C.HandleResult(old(State()), operation, value, now, surroundings.answers(operation))
    {
      hide LaneOk, C.HandleResult;
      var (operation, value) := databaseResults[0];
      databaseResults := databaseResults[1..];
      HandleResult(operation, value, now, surroundings.answers(operation));
    }

    method NextCompletion(now: Time)
      requires Valid() && completions != []
      modifies this`nextOperation, this`operations, this`outstanding, this`deferred, this`databaseAvailable
      modifies this`publications, this`completions
      modifies worker`commands, worker`operations, worker`accepted
      ensures Valid() && completions == old(completions)[1..]
      ensures State() == C.HandleCompletion(old(State()), old(completions)[0].0, old(completions)[0].1, now)
    {
      hide LaneOk, C.HandleCompletion;
      var (token, delivered) := completions[0];
      completions := completions[1..];
      HandleCompletion(token, delivered, now);
    }

    method NextMessage(now: Time, surroundings: C.Surroundings)
      requires Valid() && messages != []
      modifies this`nextOperation, this`operations, this`outstanding, this`deferred, this`databaseAvailable
      modifies this`early, this`sent, this`messages
      modifies worker`commands, worker`operations, worker`accepted
      ensures Valid() && messages == old(messages)[1..]
      ensures State() == C.HandleMessage(old(State()), old(messages)[0], now, surroundings.gate(old(messages)[0]))
    {
      hide LaneOk, C.HandleMessage;
      var message := messages[0];
      messages := messages[1..];
      HandleMessage(message, now, surroundings.gate(message));
    }

    /** The next item: a result if there is one, else a completion, else a message. */
    method HandleOne(now: Time, surroundings: C.Surroundings)
      requires Valid() && (databaseResults != [] || completions != [] || messages != [])
      modifies this`nextOperation, this`operations, this`outstanding, this`deferred, this`databaseAvailable
      modifies this`recoveryStarted, this`nextToken, this`publications, this`handed
      modifies this`active, this`early, this`sent
      modifies worker`commands, worker`operations, worker`accepted
      modifies this`databaseResults, this`completions, this`messages
      ensures Valid()
      ensures |databaseResults| + |completions| + |messages| <
              |old(databaseResults)| + |old(completions)| + |old(messages)|
      ensures C.Drained(old(State()), old(databaseResults), old(completions), old(messages), now, surroundings) ==
              C.Drained(State(), databaseResults, completions, messages, now, surroundings)
    {
      C.DrainedUnfolds(State(), databaseResults, completions, messages, now, surroundings);
      hide Valid, C.HandleResult, C.HandleCompletion, C.HandleMessage, C.Drained;
      if databaseResults != [] {
        NextResult(now, surroundings);
      } else if completions != [] {
        NextCompletion(now);
      } else {
        NextMessage(now, surroundings);
      }
    }

    method Drain(now: Time, surroundings: C.Surroundings)
      requires Valid()
      modifies this`nextOperation, this`operations, this`outstanding, this`deferred, this`databaseAvailable
      modifies this`recoveryStarted, this`nextToken, this`publications, this`handed
      modifies this`active, this`early, this`sent
      modifies worker`commands, worker`operations, worker`accepted
      modifies this`databaseResults, this`completions, this`messages
      ensures Valid() && databaseResults == [] && completions == [] && messages == []
      ensures State() ==
              C.Drained(old(State()), old(databaseResults), old(completions), old(messages), now, surroundings)
    {
      hide LaneOk, C.HandleResult, C.HandleCompletion, C.HandleMessage;
      while databaseResults != [] || completions != [] || messages != []
        invariant Valid()
        invariant C.Drained(old(State()), old(databaseResults), old(completions), old(messages), now, surroundings) ==
                  C.Drained(State(), databaseResults, completions, messages, now, surroundings)
        decreases |databaseResults| + |completions| + |messages|
      {
        HandleOne(now, surroundings);
      }
    }

    /** One round: the queues, one deferred transition, and the scan. */
    method ProcessReady(now: Time, surroundings: C.Surroundings) returns (ghost deferredId: Id, ghost order: seq<Id>)
      requires Valid()
      modifies this`nextOperation, this`operations, this`outstanding, this`deferred, this`databaseAvailable
      modifies this`recoveryStarted, this`nextToken, this`publications, this`handed
      modifies this`active, this`early, this`sent
      modifies worker`commands, worker`operations, worker`accepted
      modifies this`nextCleanup, this`databaseResults, this`completions, this`messages
      ensures Valid() && databaseResults == [] && completions == [] && messages == []
      ensures var drained := C.Drained(old(State()), old(databaseResults), old(completions), old(messages), now, surroundings);
              C.FinishesRound(drained, State(), deferredId, order, now, surroundings)
    {
      hide LaneOk, C.Drained, C.ScheduleCleanup, C.ScanEach, C.RetryDeferred;
      Drain(now, surroundings);
      deferredId, order := Finish(now, surroundings);
    }

    method Finish(now: Time, surroundings: C.Surroundings) returns (ghost deferredId: Id, ghost order: seq<Id>)
      requires Valid()
      modifies this`nextOperation, this`operations, this`outstanding, this`deferred, this`databaseAvailable
      modifies this`recoveryStarted, this`nextToken, this`publications, this`handed, this`nextCleanup
      modifies worker`commands, worker`operations, worker`accepted
      ensures Valid() && C.FinishesRound(old(State()), State(), deferredId, order, now, surroundings)
    {
      hide LaneOk, C.ScheduleCleanup, C.ScanEach, C.RetryDeferred;
      deferredId := RetryDeferredTransitions();
      C.RetryKeepsActive(old(State()), deferredId);
      order := ProcessTimeoutsAndRecovery(now, surroundings.online, surroundings.accepts);
    }
  }
}
