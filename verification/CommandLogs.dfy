/** What leaves the service is never taken back, and who calls the device publisher. */
module CommandLogs {
  import opened Wrappers
  import opened CommandState
  import opened PostgresWorker
  import opened CommandService
  import opened CommandInvariant
  import opened CommandHandlers
  import opened CommandSteps
  import opened CommandRuns
  import T = CommandStore

  /** The ACKs and hand-overs of `s` are the first ones of `after`. */
  predicate LogsGrow(s: Service, after: Service) {
    s.sent <= after.sent && s.handed <= after.handed
  }

  predicate OneHanded(s: Service, after: Service) {
    |after.handed| == |s.handed| + 1 && s.handed <= after.handed
  }

  /** No call of the device publisher. */
  predicate NothingHanded(s: Service, after: Service) {
    s.sent <= after.sent && after.handed == s.handed
  }

  lemma TransitionLogs(s: Service, context: Context, task: Task)
    requires task.TransitionCommand?
    ensures SubmitTransitionOrDefer(s, context, task).sent == s.sent
    ensures SubmitTransitionOrDefer(s, context, task).handed == s.handed
  {
  }

  lemma DeviceAckLogs(s: Service, device: string, ack: DeviceAck, kind: CommandType, now: Time)
    ensures HandleDeviceAck(s, device, ack, kind, now).sent == s.sent
    ensures HandleDeviceAck(s, device, ack, kind, now).handed == s.handed
  {
    hide SubmitTransitionOrDefer;
    if AckConcerns(s, device, ack, kind) {
      var context := s.active[ack.id];
      var record := context.record.value;
      var deadline := if ack.status.Progress? then now + s.controlTimeout else context.deadline;
      TransitionLogs(s, context.(record := Some(AckedRecord(record, ack, now)), deadline := deadline),
                     AckTask(record, ack, now));
    }
  }

  lemma MessageLogs(s: Service, message: Message, now: Time, gate: Option<string>)
    ensures NothingHanded(s, HandleMessage(s, message, now, gate))
  {
    hide HandleDeviceAck, Submit;
    if message.AckFromDevice? {
      if message.ack.Some? {
        DeviceAckLogs(s, message.device, message.ack.value, message.kind, now);
      }
    } else if message.parsed.Success? {
      var parsed := message.parsed.value;
      var context := Context(message.source, parsed, message.kind, message.receivedAt,
                             message.receivedAt + TimeoutOf(s, message.kind), None);
      SubmitLogs(s, Find, context, FindCommand(message.source, parsed.request));
    }
  }

  lemma SubmitLogs(s: Service, kind: OperationKind, context: Context, task: Task)
    ensures Submit(s, kind, context, task).0.sent == s.sent && Submit(s, kind, context, task).0.handed == s.handed
  {
  }

  lemma CompletionLogs(s: Service, token: nat, delivered: bool, now: Time)
    ensures NothingHanded(s, HandleCompletion(s, token, delivered, now))
  {
  }

  lemma PublishLogs(s: Service, context: Context, now: Time, accepted: bool)
    ensures var after := PublishRecord(s, context, now, accepted);
            && after.sent == s.sent
            && (after.handed == s.handed ||
                (context.record.Some? &&
                 after.handed == s.handed + [Handover(context.record.value.id, context.kind, context.source,
                                                      context.record.value.request, accepted)]))
  {
  }

  lemma ScanLogs(s: Service, id: Id, now: Time, online: bool, accepted: bool)
    ensures var after := ScanOne(s, id, now, online, accepted);
            && after.sent == s.sent
            && (after.handed == s.handed || (OneHanded(s, after) && after.handed[|s.handed|].kind.Config?))
  {
    hide PublishRecord;
    if id in s.active && s.active[id].record.Some? {
      PublishLogs(s.(recoveryStarted := s.recoveryStarted + {id}), s.active[id], now, accepted);
    }
  }

  lemma PersistedLogs(s: Service, context: Context, record: Record)
    ensures NothingHanded(s, HandlePersisted(s, context, record))
  {
    hide HandleDeviceAck;
    var acked := PublishAck(s, context.(record := Some(record)));
    var kept := acked.(active := acked.active[record.id := context.(record := Some(record))]);
    if record.id in kept.early {
      var early := kept.early[record.id];
      DeviceAckLogs(kept.(early := kept.early - {record.id}), early.device, early.ack, context.kind, early.receivedAt);
    }
  }

  /** A database result makes the service hand over a command only when it is the service's own first insert. */
  ghost predicate HandedByInsert(s: Service, after: Service, op: Operation, value: Value) {
    && op.kind.Insert? && value.Stored? && op.context.record.Some? && op.context.record.value.id == value.stored.id
    && !IsTerminal(value.stored.status)
    && OneHanded(s, after) && after.handed[|s.handed|].id == value.stored.id
  }

  lemma FirstStoredLogs(s: Service, op: Operation, record: Record, now: Time, accepted: bool)
    requires op.context.record.Some? && op.kind.Insert? && op.context.record.value.id == record.id
    requires !IsTerminal(record.status)
    ensures var after := HandleStored(s, op, record, now, accepted);
            s.sent <= after.sent && (after.handed == s.handed || HandedByInsert(s, after, op, Stored(record)))
  {
    hide HandlePersisted, PublishRecord, SubmitTransitionOrDefer;
    var stored := op.context.(record := Some(record));
    PublishLogs(s.(active := s.active[record.id := stored]), stored, now, accepted);
  }

  lemma OtherStoredLogs(s: Service, op: Operation, record: Record, now: Time, accepted: bool)
    requires op.context.record.Some? && (op.kind.Insert? || op.kind.Transition?)
    requires op.kind.Insert? ==> op.context.record.value.id != record.id || IsTerminal(record.status)
    ensures NothingHanded(s, HandleStored(s, op, record, now, accepted))
  {
    hide HandlePersisted, PublishRecord, SubmitTransitionOrDefer;
    PersistedLogs(s, op.context, record);
    var desired := op.context.record.value;
    TransitionLogs(s, op.context,
      TransitionCommand(desired.id, record.status, desired.status,
                        Update(desired.errorCode, desired.deviceAck, None, desired.completedAt, desired.updatedAt)));
  }

  lemma StoredLogs(s: Service, op: Operation, record: Record, now: Time, accepted: bool)
    requires op.context.record.Some? && (op.kind.Insert? || op.kind.Transition?)
    ensures var after := HandleStored(s, op, record, now, accepted);
            s.sent <= after.sent && (after.handed == s.handed || HandedByInsert(s, after, op, Stored(record)))
  {
    hide HandleStored;
    if op.kind.Insert? && op.context.record.value.id == record.id && !IsTerminal(record.status) {
      FirstStoredLogs(s, op, record, now, accepted);
    } else {
      OtherStoredLogs(s, op, record, now, accepted);
    }
  }

  lemma ConvergeLogs(s: Service, context: Context, current: Record)
    ensures NothingHanded(s, ConvergeAfterConflict(s, context, current))
  {
    hide SubmitTransitionOrDefer;
    if context.record.Some? {
      var desired := context.record.value;
      TransitionLogs(s, context,
        TransitionCommand(current.id, current.status, desired.status,
                          Update(desired.errorCode, desired.deviceAck, desired.dispatchedAt, desired.completedAt,
                                 desired.updatedAt)));
    }
  }

  lemma FoundLogs(s: Service, context: Context, found: Option<Record>, answers: Answers)
    ensures NothingHanded(s, HandleFound(s, context, found, answers))
  {
  }

  lemma ConflictLogs(s: Service, context: Context)
    requires context.record.Some?
    ensures NothingHanded(s, HandleTransitionConflict(s, context))
  {
  }

  lemma ValueLogs(s: Service, op: Operation, value: Value, now: Time, answers: Answers)
    requires op.kind.Insert? || op.kind.Transition? ==> op.context.record.Some?
    ensures var after := HandleValue(s, op, value, now, answers);
            s.sent <= after.sent && (after.handed == s.handed || HandedByInsert(s, after, op, value))
  {
    hide HandleStored, ConvergeAfterConflict, HandleFound, HandleTransitionConflict;
    if value.Error? {
      if op.kind.Transition? {
        ConflictLogs(s, op.context);
      }
    } else if value.Found? {
      FoundLogs(s, op.context, value.found, answers);
      if value.found.Some? {
        ConvergeLogs(s, op.context, value.found.value);
      }
    } else if value.Stored? && (op.kind.Insert? || op.kind.Transition?) {
      StoredLogs(s, op, value.stored, now, answers.accepted);
    }
  }

  lemma RetryLogs(s: Service, id: Id)
    requires id in s.deferred && s.deferred[id].task.TransitionCommand? && s.deferred[id].task.id == id
    ensures NothingHanded(s, RetryDeferred(s, id))
  {
  }

  lemma CleanupLogs(s: Service, now: Time)
    ensures NothingHanded(s, ScheduleCleanup(s, now))
  {
  }

  lemma {:induction false} LoadLogs(s: Service, loaded: seq<Loaded>)
    ensures LoadEach(s, loaded).sent == s.sent && LoadEach(s, loaded).handed == s.handed
    decreases loaded
  {
    if loaded != [] {
      LoadLogs(LoadOne(s, loaded[0]), loaded[1..]);
    }
  }

  /** In one step the logs only grow, and whatever is handed over is a configuration command or a first insert. */
  lemma StepLogs(w: World, step: Step)
    requires Inv(w) && Enabled(w, step)
    ensures LogsGrow(w.service, Next(w, step).service)
    ensures var after := Next(w, step).service;
            || after.handed == w.service.handed
            || (OneHanded(w.service, after) && after.handed[|w.service.handed|].kind.Config?)
            || (step.Result? && w.results[0].0 in w.service.operations &&
                HandedByInsert(w.service, after, w.service.operations[w.results[0].0], w.results[0].1))
  {
    hide Inv, HandleMessage, HandleCompletion, ScanOne, ScheduleCleanup, RetryDeferred, LoadActive, IsLoadable, HandleValue;
    hide T.IsCleanup, ApplyTask;
    var s := w.service;
    match step
    case Receive(message, now, gate) => MessageLogs(s, message, now, gate);
    case Result(now, answers) =>
      AbsorbKeeps(w);
      ValueLogs(Absorb(w).service, s.operations[w.results[0].0], w.results[0].1, now, answers);
    case Completion(token, delivered, now) => CompletionLogs(s, token, delivered, now);
    case Scan(id, now, online, accepted) => ScanLogs(s, id, now, online, accepted);
    case Cleanup(now) => CleanupLogs(s, now);
    case Retry(id) =>
      if s.deferred[id].task.TransitionCommand? && s.deferred[id].task.id == id {
        RetryLogs(s, id);
      }
    case Restart(loaded, now, settings) => RestartLogs(s, loaded, settings);
    case _ =>
  }

  lemma RestartLogs(s: Service, loaded: seq<Loaded>, settings: Settings)
    ensures LoadActive(FreshService(s, settings), loaded).sent == s.sent && LoadActive(FreshService(s, settings), loaded).handed == s.handed
  {
    LoadLogs(FreshService(s, settings), loaded);
  }
}
