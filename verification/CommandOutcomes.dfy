/**
 What each handler of the command service does, said on its inputs alone: who is told what, which task
 the database is given, and what is left as it was.
 */
module CommandOutcomes {
  import opened Wrappers
  import opened Collections
  import opened CommandState
  import opened PostgresWorker
  import opened CommandService

  // ---------------------------------------------------------------- what a handler can do

  /** The worker takes one more task under the next operation id. */
  predicate HasRoom(s: Service) {
    s.worker.accepting && s.nextOperation !in s.worker.operations && |s.worker.operations| < s.worker.limit
  }

  /** Exactly one task more, at the end of the FIFO, with its operation outstanding. */
  predicate Queues(s: Service, after: Service, kind: OperationKind, context: Context, task: Task) {
    after == s.(nextOperation := s.nextOperation + 1,
                worker := s.worker.(operations := s.worker.operations + {s.nextOperation},
                                    commands := s.worker.commands + [(s.nextOperation, task)]),
                operations := s.operations[s.nextOperation := Operation(kind, context)],
                outstanding := s.outstanding + 1)
  }

  /** Exactly one transition is asked for: queued when the worker has room, otherwise kept for later. */
  predicate AsksFor(s: Service, after: Service, context: Context, task: Task)
    requires task.TransitionCommand?
  {
    if HasRoom(s) then Queues(s.(deferred := s.deferred - {task.id}), after, Transition, context, task)
    else
      after == s.(nextOperation := s.nextOperation + 1, databaseAvailable := false,
                  deferred := s.deferred[task.id := Deferred(context, task)])
  }

  /** Exactly one more answer to a source. */
  predicate Tells(s: Service, after: Service, ack: SourceAck) {
    after == s.(sent := s.sent + [ack])
  }

  lemma SubmissionQueues(s: Service, kind: OperationKind, context: Context, task: Task)
    ensures var (after, accepted) := Submit(s, kind, context, task);
            && (accepted <==> HasRoom(s))
            && (accepted ==> Queues(s, after, kind, context, task))
            && (!accepted ==> after == s.(nextOperation := s.nextOperation + 1))
  {
  }

  lemma TransitionAsks(s: Service, context: Context, task: Task)
    requires task.TransitionCommand?
    ensures AsksFor(s, SubmitTransitionOrDefer(s, context, task), context, task)
  {
    SubmissionQueues(s, Transition, context, task);
    hide Submit;
  }

  /** The task that moves `record` on to the status of `seen`. */
  ghost predicate Moves(record: Record, seen: Record, update: Update, task: Task) {
    && task == TransitionCommand(record.id, record.status, seen.status, update)
    && SameIdentity(seen, record) && seen.createdAt == record.createdAt
  }

  // ---------------------------------------------------------------- device ACKs

  /** What an ACK makes of the record of its command. */
  ghost predicate AckedAs(record: Record, ack: DeviceAck, now: Time, seen: Record) {
    && (seen.status.Succeeded? <==> ack.status.Applied? || ack.status.AlreadyApplied? || ack.status.Accepted?)
    && (seen.status.Failed? <==> ack.status.Rejected?)
    && (seen.status.Timeout? <==> ack.status.DeviceTimeout?)
    && (seen.status.InProgress? <==> ack.status.Progress?)
    && seen.errorCode == (match ack.status
                          case Rejected => Some("device_rejected")
                          case DeviceTimeout => Some("device_timeout")
                          case _ => record.errorCode)
    && seen.deviceAck == Some(ack.payload) && seen.updatedAt == now && seen.dispatchedAt == record.dispatchedAt
    && seen.completedAt == (if ack.status.Progress? then None else Some(now))
  }

  /** The one transition asked for after an ACK; only progress moves the deadline. */
  ghost predicate AckAsks(s: Service, after: Service, context: Context, ack: DeviceAck, now: Time, seen: Record, task: Task)
    requires context.record.Some?
  {
    && Moves(context.record.value, seen, Update(seen.errorCode, Some(ack.payload), None, seen.completedAt, now), task)
    && AckedAs(context.record.value, ack, now, seen)
    && AsksFor(s, after,
               context.(record := Some(seen),
                        deadline := if ack.status.Progress? then now + s.controlTimeout else context.deadline),
               task)
  }

  /**
   An ACK that names no active command of its device, type and control command changes nothing, nor does
   one for a command that has ended; for a pending command it waits; otherwise exactly one transition is
   asked for, to succeeded, failed, timeout or in_progress as the device said.
   */
  lemma AckOutcome(s: Service, device: string, ack: DeviceAck, kind: CommandType, now: Time)
    ensures var after := HandleDeviceAck(s, device, ack, kind, now);
            if ack.id !in s.active || s.active[ack.id].record.None? || s.active[ack.id].kind != kind ||
               s.active[ack.id].record.value.target != Some(device) ||
               (kind.Control? && s.active[ack.id].parsed.body != ControlBody(ack.command))
            then after == s
            else
              var context := s.active[ack.id];
              match context.record.value.status
              case Pending =>
                after == s.(early := after.early) && ack.id in after.early &&
                (ack.id !in s.early ==> after.early == s.early[ack.id := EarlyAck(device, ack, now)])
              case Dispatched => exists seen, task :: AckAsks(s, after, context, ack, now, seen, task)
              case InProgress => exists seen, task :: AckAsks(s, after, context, ack, now, seen, task)
              case _ => after == s
  {
    hide SubmitTransitionOrDefer, AsksFor;
    if AckConcerns(s, device, ack, kind) {
      var context := s.active[ack.id];
      var record := context.record.value;
      var seen := AckedRecord(record, ack, now);
      var task := AckTask(record, ack, now);
      var deadline := if ack.status.Progress? then now + s.controlTimeout else context.deadline;
      TransitionAsks(s, context.(record := Some(seen), deadline := deadline), task);
      if record.status.Dispatched? || record.status.InProgress? {
        assert AckAsks(s, HandleDeviceAck(s, device, ack, kind, now), context, ack, now, seen, task);
      }
    }
  }

  // ---------------------------------------------------------------- source requests

  /**
   The reasons a request is turned away, in their order; a request that passes them all starts one lookup
   of its (source_id, request_id), with the deadline of its command type.
   */
  lemma RequestOutcome(s: Service, source: string, kind: CommandType, receivedAt: Time, parsed: Result<Parsed, string>,
                       now: Time, gate: Option<string>)
    ensures var after := HandleMessage(s, SourceRequest(source, kind, receivedAt, parsed), now, gate);
            if gate.Some? then Tells(s, after, Rejection(source, kind, None, gate.value))
            else if parsed.Failure? then Tells(s, after, Rejection(source, kind, None, parsed.error))
            else
              var request := parsed.value.request;
              var timeout := if kind.Control? then s.controlTimeout else s.configTimeout;
              var context := Context(source, parsed.value, kind, receivedAt, receivedAt + timeout, None);
              if !s.mqttAvailable then Tells(s, after, Rejection(source, kind, Some(request), "mqtt_unavailable"))
              else if !s.databaseAvailable then
                Tells(s, after, Rejection(source, kind, Some(request), "database_unavailable"))
              else if |s.active| + |s.operations| + |s.publications| >= s.capacity then
                Tells(s, after, Rejection(source, kind, Some(request), "server_busy"))
              else if HasRoom(s) then Queues(s, after, Find, context, FindCommand(source, request))
              else
                Tells(s.(nextOperation := s.nextOperation + 1), after,
                      Rejection(source, kind, Some(request), "database_unavailable"))
  {
    hide HandleDeviceAck, Submit, HasRoom, Queues;
    if gate.None? && parsed.Success? && s.mqttAvailable && s.databaseAvailable &&
       |s.active| + |s.operations| + |s.publications| < s.capacity {
      LookupOutcome(s, source, kind, receivedAt, parsed.value, now);
    }
  }

  lemma LookupOutcome(s: Service, source: string, kind: CommandType, receivedAt: Time, parsed: Parsed, now: Time)
    requires s.mqttAvailable && s.databaseAvailable && |s.active| + |s.operations| + |s.publications| < s.capacity
    ensures var after := HandleMessage(s, SourceRequest(source, kind, receivedAt, Success(parsed)), now, None);
            var timeout := if kind.Control? then s.controlTimeout else s.configTimeout;
            var context := Context(source, parsed, kind, receivedAt, receivedAt + timeout, None);
            if HasRoom(s) then Queues(s, after, Find, context, FindCommand(source, parsed.request))
            else
              Tells(s.(nextOperation := s.nextOperation + 1), after,
                    Rejection(source, kind, Some(parsed.request), "database_unavailable"))
  {
    var timeout := if kind.Control? then s.controlTimeout else s.configTimeout;
    var context := Context(source, parsed, kind, receivedAt, receivedAt + timeout, None);
    SubmissionQueues(s, Find, context, FindCommand(source, parsed.request));
    hide HandleDeviceAck, Submit, HasRoom, Queues;
  }

  /** The one answer to a request whose key has a row: that row exactly when the payload is the same. */
  function AnswerTo(context: Context, request: string, payload: string, row: Record): SourceAck {
    if row.payload == payload then StatusAck(context.source, context.kind, row)
    else Rejection(context.source, context.kind, Some(request), "idempotency_conflict")
  }

  /** A found row is acknowledged when it has the request's payload, and refused otherwise; nothing else happens. */
  lemma FoundOutcome(s: Service, context: Context, row: Record, answers: Answers)
    ensures Tells(s, HandleFound(s, context, Some(row), answers),
                  AnswerTo(context, context.parsed.request, context.parsed.payload, row))
  {
  }

  /** The same when the insert met a row of somebody else. */
  lemma ForeignInsertOutcome(s: Service, op: Operation, row: Record, now: Time, accepted: bool)
    requires op.kind.Insert? && op.context.record.Some? && op.context.record.value.id != row.id
    ensures Tells(s, HandleStored(s, op, row, now, accepted),
                  AnswerTo(op.context, op.context.record.value.request, op.context.record.value.payload, row))
  {
  }

  /** A first request is stored pending exactly when it is well-formed, has a target, and that is online. */
  ghost predicate IsFirstRow(context: Context, answers: Answers, record: Record) {
    var wellFormed := !context.parsed.body.RejectedBody?;
    && record.id == answers.freshId && record.kind == context.kind && record.source == context.source
    && record.request == context.parsed.request && record.payload == context.parsed.payload
    && record.createdAt == context.receivedAt && record.updatedAt == context.receivedAt
    && record.dispatchedAt.None? && record.deviceAck.None?
    && (record.status.Pending? <==> wellFormed && answers.resolution.Resolved? && answers.resolution.online)
    && (record.status.Pending? || record.status.Failed?)
    && (record.completedAt == if record.status.Pending? then None else Some(context.receivedAt))
    && (record.target == if wellFormed && answers.resolution.Resolved? then Some(answers.resolution.device) else None)
    && (!wellFormed ==> record.errorCode == Some(context.parsed.body.error))
    && (wellFormed && answers.resolution.Unresolved? ==> record.errorCode == Some(answers.resolution.error))
    && (wellFormed && answers.resolution.Resolved? ==>
          record.errorCode == if answers.resolution.online then None else Some("target_offline"))
  }

  /** Without a row the insert of such a record is queued; a worker without room drops the request. */
  lemma NewRequestOutcome(s: Service, context: Context, answers: Answers)
    ensures var after := HandleFound(s, context, None, answers);
            exists record :: IsFirstRow(context, answers, record) &&
              if HasRoom(s) then Queues(s, after, Insert, context.(record := Some(record)), InsertCommand(record))
              else after == s.(nextOperation := s.nextOperation + 1)
  {
    var record := NewRecord(context, answers.freshId, answers.resolution);
    SubmissionQueues(s, Insert, context.(record := Some(record)), InsertCommand(record));
    assert IsFirstRow(context, answers, record);
    hide Submit, Queues, HasRoom;
  }

  // ---------------------------------------------------------------- publishing

  /** How a command ends when its publication fails: for a control command nobody knows whether it arrived. */
  ghost predicate FailedAs(record: Record, seen: Record, uncertain: bool, now: Time) {
    && (seen.status.DeliveryUncertain? <==> uncertain) && (seen.status.Failed? <==> !uncertain)
    && seen.errorCode == Some(if uncertain then "control_delivery_uncertain" else "mqtt_publish_failed")
    && seen.updatedAt == now && seen.completedAt == Some(now)
    && seen.dispatchedAt == record.dispatchedAt && seen.deviceAck == record.deviceAck
  }

  /** The state after the device publisher was called once for `record`. */
  predicate Calls(s: Service, called: Service, context: Context, record: Record, accepted: bool) {
    called == s.(recoveryStarted := s.recoveryStarted + {record.id}, nextToken := s.nextToken + 1,
                 handed := s.handed + [Handover(record.id, context.kind, context.source, record.request, accepted)],
                 publications := if accepted then s.publications[s.nextToken := context] else s.publications)
  }

  ghost predicate RefusalAsks(called: Service, after: Service, context: Context, now: Time, seen: Record, task: Task)
    requires context.record.Some?
  {
    && Moves(context.record.value, seen, Update(seen.errorCode, None, None, Some(now), now), task)
    && FailedAs(context.record.value, seen, false, now)
    && AsksFor(called, after, context.(record := Some(seen)), task)
  }

  /**
   A well-formed command with a target is handed over once while MQTT is available, under a new token; a
   refusal leaves no publication behind and asks for the failed status.
   */
  lemma PublishOutcome(s: Service, context: Context, now: Time, accepted: bool)
    ensures var after := PublishRecord(s, context, now, accepted);
            if context.record.None? || context.record.value.target.None? || context.parsed.body.RejectedBody? ||
               !s.mqttAvailable
            then after == s
            else if accepted then Calls(s, after, context, context.record.value, true)
            else
              exists called, seen, task ::
                Calls(s, called, context, context.record.value, false) &&
                RefusalAsks(called, after, context, now, seen, task)
  {
    hide SubmitTransitionOrDefer, AsksFor;
    if context.record.Some? && context.record.value.target.Some? && s.mqttAvailable && !context.parsed.body.RejectedBody? &&
       !accepted {
      var record := context.record.value;
      var called := CallPublisher(s, context, record, false);
      var seen := Decide(record, Failed, Some("mqtt_publish_failed"), now);
      var task := TransitionCommand(record.id, record.status, Failed, Update(seen.errorCode, None, None, Some(now), now));
      TransitionAsks(called, context.(record := Some(seen)), task);
      assert Calls(s, called, context, record, false);
      assert RefusalAsks(called, PublishRecord(s, context, now, false), context, now, seen, task);
    }
  }

  /** The one transition asked for after a publish completion. */
  ghost predicate CompletionAsks(s: Service, after: Service, context: Context, delivered: bool, now: Time, seen: Record,
                                 task: Task)
    requires context.record.Some?
  {
    var record := context.record.value;
    && (seen.status.Dispatched? <==> delivered)
    && (delivered ==> seen.dispatchedAt == Some(now) && Moves(record, seen, Update(None, None, Some(now), None, now), task))
    && (!delivered ==>
          FailedAs(record, seen, context.kind.Control?, now) &&
          Moves(record, seen, Update(seen.errorCode, None, None, Some(now), now), task))
    && AsksFor(s, after, context.(record := Some(seen)), task)
  }

  /**
   A completion takes its publication away. A delivered command becomes dispatched unless it already was;
   an undelivered one becomes delivery_uncertain when it is a control command and failed otherwise. An
   unknown token changes nothing.
   */
  lemma CompletionOutcome(s: Service, token: nat, delivered: bool, now: Time)
    ensures var after := HandleCompletion(s, token, delivered, now);
            if token !in s.publications then after == s
            else
              var context := s.publications[token];
              var taken := s.(publications := s.publications - {token});
              if context.record.None? || (delivered && context.record.value.status.Dispatched?) then after == taken
              else exists seen, task :: CompletionAsks(taken, after, context, delivered, now, seen, task)
  {
    hide SubmitTransitionOrDefer, AsksFor;
    if token in s.publications && s.publications[token].record.Some? {
      var context := s.publications[token];
      var record := context.record.value;
      var taken := s.(publications := s.publications - {token});
      var errorCode := Some(if context.kind.Control? then "control_delivery_uncertain" else "mqtt_publish_failed");
      var seen := if delivered then record.(status := Dispatched, updatedAt := now, dispatchedAt := Some(now))
                  else Decide(record, if context.kind.Control? then DeliveryUncertain else Failed, errorCode, now);
      var update := if delivered then Update(None, None, Some(now), None, now)
                    else Update(errorCode, None, None, Some(now), now);
      var task := TransitionCommand(record.id, record.status, seen.status, update);
      TransitionAsks(taken, context.(record := Some(seen)), task);
      if !delivered || !record.status.Dispatched? {
        assert CompletionAsks(taken, HandleCompletion(s, token, delivered, now), context, delivered, now, seen, task);
      }
    }
  }

  // ---------------------------------------------------------------- timeouts and recovery

  /** The one transition asked for when a deadline has passed. */
  ghost predicate TimeoutAsks(s: Service, after: Service, context: Context, now: Time, seen: Record, task: Task)
    requires context.record.Some?
  {
    var record := context.record.value;
    && seen.status.Timeout? && seen.updatedAt == now && seen.completedAt == Some(now)
    && seen.errorCode == Some(if context.kind.Control? then "control_timeout" else "command_timeout")
    && seen.dispatchedAt == record.dispatchedAt && seen.deviceAck == record.deviceAck
    && Moves(record, seen, Update(seen.errorCode, None, record.dispatchedAt, Some(now), now), task)
    && AsksFor(s, after, context.(record := Some(seen)), task)
  }

  /**
   The scan of one command. Past its deadline it is timed out, once; before it a configuration command
   whose target is online is handed over again, once, while MQTT is available; otherwise nothing changes.
   */
  lemma ScanOutcome(s: Service, id: Id, now: Time, online: bool, accepted: bool)
    requires id in s.active && s.active[id].record.Some? ==> s.active[id].record.value.id == id
    ensures var after := ScanOne(s, id, now, online, accepted);
            if id !in s.active || s.active[id].record.None? || id in s.recoveryStarted then after == s
            else
              var context := s.active[id];
              var latched := s.(recoveryStarted := s.recoveryStarted + {id});
              if context.deadline <= now then exists seen, task :: TimeoutAsks(latched, after, context, now, seen, task)
              else if context.kind.Config? && s.mqttAvailable && online && context.record.value.target.Some?
              then after == PublishRecord(latched, context, now, accepted)
              else after == s
  {
    hide SubmitTransitionOrDefer, AsksFor, PublishRecord;
    if id in s.active && s.active[id].record.Some? && s.active[id].deadline <= now && id !in s.recoveryStarted {
      var context := s.active[id];
      var record := context.record.value;
      var latched := s.(recoveryStarted := s.recoveryStarted + {id});
      var seen := Decide(record, Timeout, Some(if context.kind.Control? then "control_timeout" else "command_timeout"), now);
      var update := Update(seen.errorCode, None, record.dispatchedAt, Some(now), now);
      var task := TransitionCommand(id, record.status, Timeout, update);
      TransitionAsks(latched, context.(record := Some(seen)), task);
      assert TimeoutAsks(latched, ScanOne(s, id, now, online, accepted), context, now, seen, task);
    }
  }

  // ---------------------------------------------------------------- start

  /** A command read at start-up waits as long as a new one, from its last progress or its creation on. */
  ghost predicate LoadedAs(s: Service, loaded: Loaded, context: Context) {
    var record := loaded.record;
    && context.record == Some(record) && context.source == record.source && context.kind == record.kind
    && context.parsed == loaded.parsed && context.receivedAt == record.createdAt
    && (record.status.InProgress? && record.kind.Control? ==> context.deadline == record.updatedAt + s.controlTimeout)
    && (record.status.InProgress? && record.kind.Config? ==> context.deadline == record.updatedAt + s.configTimeout)
    && (!record.status.InProgress? && record.kind.Control? ==> context.deadline == record.createdAt + s.controlTimeout)
    && (!record.status.InProgress? && record.kind.Config? ==> context.deadline == record.createdAt + s.configTimeout)
  }

  /** A command that is taken up: its source is known and it has not ended. */
  predicate IsTakenUp(loaded: Loaded) {
    var status := loaded.record.status;
    loaded.sourceKnown && (status.Pending? || status.Dispatched? || status.InProgress?)
  }

  predicate Mentions(commands: seq<Loaded>, id: Id) {
    exists k :: 0 <= k < |commands| && commands[k].record.id == id && IsTakenUp(commands[k])
  }

  /** Exactly the commands taken up are added or replaced. */
  ghost predicate TakesUp(s: Service, active: map<Id, Context>, commands: seq<Loaded>) {
    && (forall k :: 0 <= k < |commands| && IsTakenUp(commands[k]) ==>
          commands[k].record.id in active && LoadedAs(s, commands[k], active[commands[k].record.id]))
    && (forall id :: !Mentions(commands, id) ==> Lookup(active, id) == Lookup(s.active, id))
  }

  lemma LoadOneTakesUp(s: Service, loaded: Loaded)
    ensures var after := LoadOne(s, loaded);
            && after == s.(active := after.active)
            && (IsTakenUp(loaded) ==>
                  loaded.record.id in after.active && LoadedAs(s, loaded, after.active[loaded.record.id]))
            && (forall id :: id != loaded.record.id || !IsTakenUp(loaded) ==>
                  Lookup(after.active, id) == Lookup(s.active, id))
  {
  }

  lemma {:induction false} LoadEachTakesUp(s: Service, commands: seq<Loaded>)
    requires forall k, l :: 0 <= k < l < |commands| ==> commands[k].record.id != commands[l].record.id
    ensures LoadEach(s, commands) == s.(active := LoadEach(s, commands).active)
    ensures TakesUp(s, LoadEach(s, commands).active, commands)
    decreases commands
  {
    if commands != [] {
      var (first, rest) := (LoadOne(s, commands[0]), commands[1..]);
      LoadOneTakesUp(s, commands[0]);
      hide LoadOne;
      LoadEachTakesUp(first, rest);
      TakesUpFirst(s, first, LoadEach(s, commands).active, commands);
    }
  }

  lemma TakesUpFirst(s: Service, first: Service, active: map<Id, Context>, commands: seq<Loaded>)
    requires |commands| > 0 && forall k, l :: 0 <= k < l < |commands| ==> commands[k].record.id != commands[l].record.id
    requires first == LoadOne(s, commands[0]) && TakesUp(first, active, commands[1..])
    ensures TakesUp(s, active, commands)
  {
    var rest := commands[1..];
    assert forall k :: 0 <= k < |rest| ==> rest[k] == commands[k + 1];
    LoadOneTakesUp(s, commands[0]);
    assert forall c: Context, k :: 0 <= k < |rest| ==> LoadedAs(first, rest[k], c) == LoadedAs(s, rest[k], c);
    hide LoadOne, IsTakenUp, LoadedAs;
    forall k | 0 <= k < |commands| && IsTakenUp(commands[k])
      ensures commands[k].record.id in active && LoadedAs(s, commands[k], active[commands[k].record.id])
    {
      if k > 0 {
        assert rest[k - 1] == commands[k];
      } else {
        assert !Mentions(rest, commands[0].record.id);
        assert Lookup(active, commands[0].record.id) == Lookup(first.active, commands[0].record.id);
      }
    }
    forall id | !Mentions(commands, id) ensures Lookup(active, id) == Lookup(s.active, id) {
      assert !Mentions(rest, id);
    }
  }

  /** A list within the limit makes exactly its unfinished commands of known sources active; a longer one none. */
  lemma LoadOutcome(s: Service, commands: seq<Loaded>)
    requires forall k, l :: 0 <= k < l < |commands| ==> commands[k].record.id != commands[l].record.id
    ensures var after := LoadActive(s, commands);
            if |commands| > s.capacity then after == s
            else after == s.(active := after.active) && TakesUp(s, after.active, commands)
  {
    LoadEachTakesUp(s, commands);
    hide LoadEach, TakesUp;
  }

  // ---------------------------------------------------------------- rows from the database

  /** A command that has ended is forgotten. */
  predicate Forgets(s: Service, after: Service, id: Id) {
    after == s.(active := s.active - {id}, recoveryStarted := s.recoveryStarted - {id}, early := s.early - {id})
  }

  /**
   The source is told about every stored row; a row that has ended is forgotten, another one stays active,
   and once it is dispatched the ACK that waited for it is handled as if it came now.
   */
  lemma PersistedOutcome(s: Service, context: Context, row: Record)
    ensures var after := HandlePersisted(s, context, row);
            var stored := context.(record := Some(row));
            var told := s.(sent := s.sent + [StatusAck(context.source, context.kind, row)]);
            var kept := told.(active := s.active[row.id := stored]);
            match row.status
            case Pending => after == kept
            case InProgress => after == kept
            case Dispatched =>
              if row.id !in s.early then after == kept
              else
                var early := s.early[row.id];
                after == HandleDeviceAck(kept.(early := s.early - {row.id}), early.device, early.ack, context.kind,
                                         early.receivedAt)
            case _ => Forgets(told, after, row.id)
  {
    hide HandleDeviceAck;
  }

  /** A transition whose row is not yet where it was meant to end asks for that end once more. */
  ghost predicate AsksAgain(s: Service, after: Service, context: Context, row: Record, update: Update)
    requires context.record.Some?
  {
    var desired := context.record.value;
    && update.errorCode == desired.errorCode && update.deviceAck == desired.deviceAck
    && update.completedAt == desired.completedAt && update.updatedAt == desired.updatedAt
    && AsksFor(s, after, context, TransitionCommand(desired.id, row.status, desired.status, update))
  }

  /** The row after the service's own insert or transition. */
  lemma StoredOutcome(s: Service, op: Operation, row: Record, now: Time, accepted: bool)
    requires op.kind.Insert? || op.kind.Transition?
    requires op.context.record.Some? && op.context.record.value.id == row.id
    ensures var after := HandleStored(s, op, row, now, accepted);
            var desired := op.context.record.value.status;
            if op.kind.Transition? && IsTerminal(desired) && CanTransition(row.status, desired) then
              exists update: Update :: update.dispatchedAt == None && AsksAgain(s, after, op.context, row, update)
            else if op.kind.Transition? || IsTerminal(row.status) then after == HandlePersisted(s, op.context, row)
            else
              var stored := op.context.(record := Some(row));
              after == PublishRecord(s.(active := s.active[row.id := stored]), stored, now, accepted)
  {
    hide SubmitTransitionOrDefer, HandlePersisted, PublishRecord, AsksFor;
    var desired := op.context.record.value;
    var update := Update(desired.errorCode, desired.deviceAck, None, desired.completedAt, desired.updatedAt);
    var task := TransitionCommand(desired.id, row.status, desired.status, update);
    TransitionAsks(s, op.context, task);
    if op.kind.Transition? && IsTerminal(desired.status) && CanTransition(row.status, desired.status) {
      assert AsksAgain(s, HandleStored(s, op, row, now, accepted), op.context, row, update);
    }
  }

  /**
   After a lost compare-and-set the row decides: one that has ended is forgotten and, if its command was
   active, acknowledged once; one that may still move on as wanted is asked to, from where it is now;
   any other is taken as it is.
   */
  lemma ConvergeOutcome(s: Service, context: Context, row: Record)
    requires context.record.Some? && context.record.value.id == row.id
    ensures var after := ConvergeAfterConflict(s, context, row);
            var desired := context.record.value.status;
            if IsTerminal(row.status) then
              var told := s.(sent := s.sent + [StatusAck(context.source, context.kind, row)]);
              Forgets(if row.id in s.active then told else s, after, row.id)
            else if row.status != desired && CanTransition(row.status, desired) then
              exists update: Update ::
                update.dispatchedAt == context.record.value.dispatchedAt && AsksAgain(s, after, context, row, update)
            else after == s.(active := s.active[row.id := context.(record := Some(row))])
  {
    hide SubmitTransitionOrDefer, AsksFor;
    var desired := context.record.value;
    var update := Update(desired.errorCode, desired.deviceAck, desired.dispatchedAt, desired.completedAt, desired.updatedAt);
    TransitionAsks(s, context, TransitionCommand(row.id, row.status, desired.status, update));
    if !IsTerminal(row.status) && row.status != desired.status && CanTransition(row.status, desired.status) {
      assert AsksAgain(s, ConvergeAfterConflict(s, context, row), context, row, update);
    }
  }

  /**
   An error answer: a lost compare-and-set asks for the row, an outage is remembered, anything else changes
   nothing.
   */
  lemma ErrorOutcome(s: Service, op: Operation, value: Value, now: Time, answers: Answers)
    requires value.Error? && (op.kind.Transition? ==> op.context.record.Some?)
    ensures var after := HandleValue(s, op, value, now, answers);
            if op.kind.Transition? && value.stateChanged then
              if HasRoom(s) then
                Queues(s, after, FindByIdForConvergence, op.context, FindCommandById(op.context.record.value.id))
              else after == s.(nextOperation := s.nextOperation + 1, databaseAvailable := false)
            else after == s.(databaseAvailable := s.databaseAvailable && !value.kind.Unavailable?)
  {
    if op.kind.Transition? {
      SubmissionQueues(s, FindByIdForConvergence, op.context, FindCommandById(op.context.record.value.id));
      hide Submit, HasRoom, Queues;
    }
  }

  /** A deferred transition is queued as it was when the database is available and the worker has room; it is never lost. */
  lemma RetryOutcome(s: Service, id: Id)
    requires id in s.deferred && s.deferred[id].task.TransitionCommand? && s.deferred[id].task.id == id
    ensures var after := RetryDeferred(s, id);
            if !s.databaseAvailable then after == s
            else if HasRoom(s) then
              Queues(s.(deferred := s.deferred - {id}), after, Transition, s.deferred[id].context, s.deferred[id].task)
            else after == s.(nextOperation := s.nextOperation + 1, databaseAvailable := false)
  {
    var less := s.(deferred := s.deferred - {id});
    SubmissionQueues(less, Transition, s.deferred[id].context, s.deferred[id].task);
    assert less.deferred[id := s.deferred[id]] == s.deferred;
    hide Submit, Queues;
  }

  /** Any other answer goes to the handler of its operation; the operation is taken out and counted no longer. */
  lemma AnswerOutcome(s: Service, operation: nat, value: Value, now: Time, answers: Answers)
    requires operation in s.operations && !value.Error?
    ensures var after := HandleResult(s, operation, value, now, answers);
            var op := s.operations[operation];
            var taken := s.(operations := s.operations - {operation}, outstanding := s.outstanding - 1);
            match value
            case Found(found) =>
              if op.kind.Find? then after == HandleFound(taken, op.context, found, answers)
              else if op.kind.FindByIdForConvergence? && found.Some? then
                after == ConvergeAfterConflict(taken, op.context, found.value)
              else after == taken
            case Stored(row) =>
              if op.kind.Insert? || op.kind.Transition? then after == HandleStored(taken, op, row, now, answers.accepted)
              else after == taken
            case _ => after == taken
  {
    hide HandleFound, ConvergeAfterConflict, HandleStored;
  }

  // ---------------------------------------------------------------- periodic work and signals

  /** A cleanup that is due, alone and possible removes what ended more than the retention ago, a batch at a time. */
  lemma CleanupOutcome(s: Service, now: Time)
    ensures var after := ScheduleCleanup(s, now);
            var due := s.nextCleanup.Some? && s.nextCleanup.value <= now;
            var alone := forall o :: o in s.operations ==> !s.operations[o].kind.Cleanup?;
            if due && alone && s.databaseAvailable && HasRoom(s) then
              exists context: Context ::
                context.record.None? &&
                Queues(s.(nextCleanup := Some(now + s.cleanupInterval)), after, Cleanup, context,
                       CleanupCommands(now - s.retention, s.cleanupBatch))
            else
              after.worker == s.worker && after.operations == s.operations && after.outstanding == s.outstanding &&
              after.nextCleanup == if due || s.nextCleanup.None? then Some(now + s.cleanupInterval) else s.nextCleanup
  {
    var task := CleanupCommands(now - s.retention, s.cleanupBatch);
    SubmissionQueues(s, Cleanup, CleanupContext(now), task);
    assert CleanupContext(now).record.None?;
    hide Submit, CleanupContext;
    if s.nextCleanup.Some? && s.nextCleanup.value <= now && HasRoom(s) {
      assert Queues(s, Submit(s, Cleanup, CleanupContext(now), task).0, Cleanup, CleanupContext(now), task);
    }
  }

  /** A connection that comes back, or a target that does, allows its commands to be handed over again, and no others. */
  lemma LatchOutcome(s: Service, available: bool, device: string, id: Id)
    ensures SetMqttAvailable(s, available) ==
            s.(mqttAvailable := available, recoveryStarted := SetMqttAvailable(s, available).recoveryStarted)
    ensures id in SetMqttAvailable(s, available).recoveryStarted <==>
              id in s.recoveryStarted && (s.mqttAvailable || !available)
    ensures TargetOnline(s, device) == s.(recoveryStarted := TargetOnline(s, device).recoveryStarted)
    ensures id in TargetOnline(s, device).recoveryStarted <==>
              id in s.recoveryStarted &&
              (id in s.active && s.active[id].record.Some? ==> s.active[id].record.value.target != Some(device))
  {
  }

  /** The queues one after the other: all results, then all completions, then all messages. */
  lemma {:induction false} DrainOutcome(s: Service, results: seq<(nat, Value)>, completions: seq<(nat, bool)>,
                                        messages: seq<Message>, now: Time, surroundings: Surroundings)
    ensures Drained(s, results, completions, messages, now, surroundings) ==
            var first := Drained(s, results, [], [], now, surroundings);
            var second := Drained(first, [], completions, [], now, surroundings);
            Drained(second, [], [], messages, now, surroundings)
    decreases |results| + |completions|
  {
    hide Drained, HandleResult, HandleCompletion, HandleMessage;
    DrainedUnfolds(s, results, completions, messages, now, surroundings);
    DrainedUnfolds(s, results, [], [], now, surroundings);
    DrainedUnfolds(s, [], completions, [], now, surroundings);
    DrainedUnfolds(s, [], [], [], now, surroundings);
    if results != [] {
      DrainOutcome(HandleResult(s, results[0].0, results[0].1, now, surroundings.answers(results[0].0)), results[1..],
                   completions, messages, now, surroundings);
    } else if completions != [] {
      DrainOutcome(HandleCompletion(s, completions[0].0, completions[0].1, now), [], completions[1..], messages, now,
                   surroundings);
      DrainedUnfolds(HandleCompletion(s, completions[0].0, completions[0].1, now), [], [], [], now, surroundings);
    }
  }
}
