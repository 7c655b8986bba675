/** The remaining handlers, the worker's side and the restart keep the invariant. */
module CommandSteps {
  import opened Wrappers
  import opened Collections
  import opened CommandState
  import opened PostgresWorker
  import opened CommandService
  import opened CommandInvariant
  import opened CommandBlocks
  import opened CommandHandlers
  import T = CommandStore

  // ---------------------------------------------------------------- inputs of the business thread

  lemma AdmittingAtMost(operations: map<nat, Operation>)
    ensures |Admitting(operations)| <= |operations|
  {
    SubsetSize(Admitting(operations), operations.Keys);
  }

  lemma SourceRequestKeeps(w: World, message: Message, now: Time, gate: Option<string>)
    requires Inv(w) && message.SourceRequest?
    ensures Inv(w.(service := HandleMessage(w.service, message, now, gate)))
  {
    hide Inv;
    hide Submit;
    var s := w.service;
    if gate.Some? {
      RejectKeeps(w, message.source, message.kind, None, gate.value);
    } else if message.parsed.Failure? {
      RejectKeeps(w, message.source, message.kind, None, message.parsed.error);
    } else {
      var parsed := message.parsed.value;
      var request := Some(parsed.request);
      RejectKeeps(w, message.source, message.kind, request, "mqtt_unavailable");
      RejectKeeps(w, message.source, message.kind, request, "database_unavailable");
      RejectKeeps(w, message.source, message.kind, request, "server_busy");
      if |s.active| + |s.operations| + |s.publications| < s.capacity {
        var context := Context(message.source, parsed, message.kind, message.receivedAt,
                               message.receivedAt + TimeoutOf(s, message.kind), None);
        var task := FindCommand(message.source, parsed.request);
        AdmittingAtMost(s.operations);
        SubmitKeeps(w, Find, context, task);
        RejectKeeps(w.(service := Submit(s, Find, context, task).0), message.source, message.kind, request, "database_unavailable");
      }
    }
  }

  lemma PublicationFacts(w: World, token: nat)
    requires Inv(w) && token in w.service.publications
    ensures PublicationOk(w.birth, w.activated, w.service.publications[token])
    ensures Inv(w.(service := w.service.(publications := w.service.publications - {token})))
  {
    assert PublicationsOk(w.birth, w.activated, w.service.publications - {token});
  }

  lemma CompletionKeeps(w: World, token: nat, delivered: bool, now: Time)
    requires Inv(w)
    ensures Inv(w.(service := HandleCompletion(w.service, token, delivered, now)))
  {
    hide Inv;
    hide SubmitTransitionOrDefer;
    if token in w.service.publications {
      PublicationFacts(w, token);
      var context := w.service.publications[token];
      var taken := w.(service := w.service.(publications := w.service.publications - {token}));
      var record := context.record.value;
      if delivered && record.status.Pending? {
        TransitionKeeps(taken, context.(record := Some(record.(status := Dispatched, updatedAt := now, dispatchedAt := Some(now)))),
          TransitionCommand(record.id, record.status, Dispatched, Update(None, None, Some(now), None, now)));
      } else if !delivered && context.kind.Control? {
        TransitionKeeps(taken, context.(record := Some(Decide(record, DeliveryUncertain, Some("control_delivery_uncertain"), now))),
          TransitionCommand(record.id, record.status, DeliveryUncertain,
                            Update(Some("control_delivery_uncertain"), None, None, Some(now), now)));
      } else if !delivered {
        TransitionKeeps(taken, context.(record := Some(Decide(record, Failed, Some("mqtt_publish_failed"), now))),
          TransitionCommand(record.id, record.status, Failed,
                            Update(Some("mqtt_publish_failed"), None, None, Some(now), now)));
      }
    }
  }

  lemma LatchKeeps(w: World, recoveryStarted: set<Id>)
    requires Inv(w)
    ensures Inv(w.(service := w.service.(recoveryStarted := recoveryStarted)))
  {
  }

  lemma ScanKeeps(w: World, id: Id, now: Time, online: bool, accepted: bool)
    requires Inv(w)
    ensures Inv(w.(service := ScanOne(w.service, id, now, online, accepted)))
  {
    hide Inv;
    hide SubmitTransitionOrDefer, PublishRecord;
    var s := w.service;
    if id in s.active {
      ActiveFacts(w, id);
      var context := s.active[id];
      var record := context.record.value;
      LatchKeeps(w, s.recoveryStarted + {id});
      var latched := w.(service := s.(recoveryStarted := s.recoveryStarted + {id}));
      if now >= context.deadline {
        var errorCode := Some(if context.kind.Control? then "control_timeout" else "command_timeout");
        TransitionKeeps(latched, context.(record := Some(Decide(record, Timeout, errorCode, now))),
          TransitionCommand(id, record.status, Timeout, Update(errorCode, None, record.dispatchedAt, Some(now), now)));
      } else if context.kind.Config? {
        PublishKeeps(latched, context, now, accepted);
      }
    }
  }

  lemma CleanupKeeps(w: World, now: Time)
    requires Inv(w)
    ensures Inv(w.(service := ScheduleCleanup(w.service, now)))
  {
    hide Inv;
    hide Submit;
    var s := w.service;
    var submitted := Submit(s, Cleanup, CleanupContext(now), CleanupCommands(now - s.retention, s.cleanupBatch)).0;
    if !CleanupPending(s.operations) {
      SubmitKeeps(w, Cleanup, CleanupContext(now), CleanupCommands(now - s.retention, s.cleanupBatch));
      FlagKeeps(w.(service := submitted), submitted.databaseAvailable, submitted.mqttAvailable, submitted.recoveryStarted,
                Some(now + s.cleanupInterval));
    }
    FlagKeeps(w, s.databaseAvailable, s.mqttAvailable, s.recoveryStarted, Some(now + s.cleanupInterval));
  }

  // ---------------------------------------------------------------- the table moves on

  lemma TableKeepsStore(w: World, after: T.Table)
    requires StoreSide(w) && TableOk(after, w.birth) && T.Extends(w.table, after)
    ensures StoreSide(w.(table := after))
  {
    forall i | i in w.known ensures Reported(after, i, w.known[i]) {
      assert Reported(w.table, i, w.known[i]);
    }
    forall k | 0 <= k < |w.results| ensures ResultOk(after, w.birth, w.known, w.results[k].1) {
      assert ResultOk(w.table, w.birth, w.known, w.results[k].1);
    }
    forall k | 0 <= k < |w.service.sent| ensures AckOk(after, w.birth, w.known, w.service.sent[k]) {
      assert AckOk(w.table, w.birth, w.known, w.service.sent[k]);
    }
  }

  lemma TableKeeps(w: World, after: T.Table)
    requires Inv(w) && TableOk(after, w.birth) && T.Extends(w.table, after)
    requires FrontOk(after, w.service.worker.commands) && PristineOk(after, w.service.operations)
    ensures Inv(w.(table := after))
  {
    TableKeepsStore(w, after);
  }

  // ---------------------------------------------------------------- one command at the store

  /** The table step of a task, and the store's answer. `removed` is what a cleanup deletes. */
  ghost function ApplyTask(t: T.Table, task: Task, removed: set<Id>): (T.Table, Value) {
    match task
    case FindCommand(source, request) => (t, Found(T.FindRow(t, source, request)))
    case FindCommandById(id) => (t, Found(T.FindById(t, id)))
    case InsertCommand(record) => var (after, row) := T.Insert(t, record); (after, Stored(row))
    case TransitionCommand(id, expected, desired, update) => T.Transition(t, id, expected, desired, update)
    case CleanupCommands(before, batch) => (T.Remove(t, removed), Removed(|removed|))
  }

  /** The task at the head belongs to an outstanding operation. */
  ghost predicate HeadOf(w: World, op: Operation, task: Task) {
    && |w.service.worker.commands| > 0 && w.service.worker.commands[0].1 == task
    && w.service.worker.commands[0].0 in w.service.operations
    && op == w.service.operations[w.service.worker.commands[0].0]
    && OperationOk(w.birth, w.activated, w.service.handed, op) && TaskMatches(op, task)
  }

  lemma HeadFacts(w: World)
    requires Inv(w) && |w.service.worker.commands| > 0
    ensures w.service.worker.commands[0].0 in w.service.operations
    ensures HeadOf(w, w.service.operations[w.service.worker.commands[0].0], w.service.worker.commands[0].1)
  {
  }

  /** What the answer to the head task carries: a row as it is now. */
  ghost predicate Current(t: T.Table, birth: map<Id, Origin>, value: Value) {
    Carried(value).Some? ==>
      var r := Carried(value).value;
      RecordOk(birth, r) && r.id in t.past && r.status == T.Last(t, r.id)
  }

  lemma RowIsCurrent(t: T.Table, birth: map<Id, Origin>, i: Id)
    requires TableOk(t, birth) && i in t.rows
    ensures Current(t, birth, Stored(t.rows[i])) && Current(t, birth, Found(Some(t.rows[i])))
    ensures t.rows[i].id == i
  {
    assert T.EntryCoherent(t, i);
    assert RecordOk(birth, t.rows[i]);
  }

  lemma ApplyFind(t: T.Table, birth: map<Id, Origin>, op: Operation, task: Task)
    requires TableOk(t, birth) && TaskMatches(op, task)
    requires task.FindCommand? || task.FindCommandById?
    ensures var (after, value) := ApplyTask(t, task, {}); ValueMatches(op, value) && Current(t, birth, value)
  {
    if task.FindCommand? {
      if i :| i in t.rows && t.rows[i].source == task.source && t.rows[i].request == task.request {
        var found := T.FindRow(t, task.source, task.request).value;
        var j :| j in t.rows && t.rows[j] == found;
        RowIsCurrent(t, birth, j);
      }
    } else if task.id in t.rows {
      RowIsCurrent(t, birth, task.id);
    }
  }

  lemma ApplyInsert(w: World, op: Operation, task: Task)
    requires Inv(w) && HeadOf(w, op, task) && op.kind.Insert?
    ensures var (after, value) := ApplyTask(w.table, task, {});
            && TableOk(after, w.birth) && T.Extends(w.table, after)
            && FrontOk(after, w.service.worker.commands) && PristineOk(after, w.service.operations)
            && ValueMatches(op, value) && Current(after, w.birth, value)
  {
    var t := w.table;
    var r := op.context.record.value;
    assert InsertPending(t, 0, task);
    T.InsertKeeps(t, r);
    var (after, row) := T.Insert(t, r);
    assert TableOk(after, w.birth) by {
      forall i | i in after.rows ensures RecordOk(w.birth, after.rows[i]) {
        assert i in t.rows ==> RecordOk(w.birth, t.rows[i]);
      }
    }
    RowIsCurrent(after, w.birth, row.id);
    assert Inserts(w.service.operations, w.service.worker.commands[0].0, r.id);
    if after == t {
      assert row.id == r.id ==> T.Last(t, r.id) == r.status;
    } else {
      InsertKeepsFront(w, op, after);
    }
  }

  lemma InsertKeepsFront(w: World, op: Operation, after: T.Table)
    requires LaneSide(w) && |w.service.worker.commands| > 0
    requires op.context.record.Some?
    requires Inserts(w.service.operations, w.service.worker.commands[0].0, op.context.record.value.id)
    requires op == w.service.operations[w.service.worker.commands[0].0]
    requires var r := op.context.record.value; after == T.Table(w.table.rows[r.id := r], w.table.past[r.id := [r.status]])
    ensures FrontOk(after, w.service.worker.commands) && PristineOk(after, w.service.operations)
  {
    var r := op.context.record.value;
    var commands := w.service.worker.commands;
    forall k | 0 <= k < |commands| ensures InsertPending(after, k, commands[k].1) {
      assert InsertPending(w.table, k, commands[k].1);
      if commands[k].1.InsertCommand? && commands[k].1.record.id == r.id {
        assert Inserts(w.service.operations, commands[k].0, r.id);
        HeadIsOnce(w, k);
      }
    }
    forall o, id | Inserts(w.service.operations, o, id) && id in after.past
      ensures T.Last(after, id) == w.service.operations[o].context.record.value.status
    {
      assert id == r.id ==> o == commands[0].0;
    }
  }

  lemma HeadIsOnce(w: World, k: nat)
    requires LaneSide(w) && k < |w.service.worker.commands|
    requires w.service.worker.commands[k].0 == w.service.worker.commands[0].0
    ensures k == 0
  {
    var line := Line(w.results, w.service.worker.commands);
    assert line[|w.results| + k] == w.service.worker.commands[k].0;
    assert line[|w.results|] == w.service.worker.commands[0].0;
  }

  lemma TransitionKeepsTable(t: T.Table, birth: map<Id, Origin>, desired: Record, task: Task)
    requires TableOk(t, birth) && RecordOk(birth, desired) && LegalTask(desired, task)
    ensures var (after, value) := T.Transition(t, task.id, task.expected, task.desired, task.update);
            && TableOk(after, birth) && T.Extends(t, after) && Current(after, birth, value)
            && (if value.Stored? then
                  && value.stored.id == desired.id && value.stored.status == desired.status && task.id in t.rows
                  && after == T.Table(t.rows[task.id := value.stored], t.past[task.id := t.past[task.id] + [task.desired]])
                else after == t && value.Error? && value.kind.Permanent? && value.stateChanged)
  {
    T.TransitionKeeps(t, task.id, task.expected, task.desired, task.update);
    var (after, value) := T.Transition(t, task.id, task.expected, task.desired, task.update);
    if value.Stored? {
      RowIsCurrent(t, birth, task.id);
      assert RecordOk(birth, t.rows[task.id]);
      forall i | i in after.rows ensures RecordOk(birth, after.rows[i]) {
        assert i != task.id ==> RecordOk(birth, t.rows[i]);
      }
      RowIsCurrent(after, birth, task.id);
    }
  }

  lemma LaneFacts(w: World)
    requires Inv(w)
    ensures LaneSide(w) && TableOk(w.table, w.birth)
    ensures FrontOk(w.table, w.service.worker.commands) && PristineOk(w.table, w.service.operations)
    ensures w.table.rows.Keys <= w.table.past.Keys
  {
    forall i | i in w.table.rows ensures i in w.table.past {
      assert T.EntryCoherent(w.table, i);
    }
  }

  lemma ApplyTransition(w: World, op: Operation, task: Task)
    requires Inv(w) && HeadOf(w, op, task) && op.kind.Transition?
    ensures var (after, value) := ApplyTask(w.table, task, {});
            && TableOk(after, w.birth) && T.Extends(w.table, after)
            && FrontOk(after, w.service.worker.commands) && PristineOk(after, w.service.operations)
            && ValueMatches(op, value) && Current(after, w.birth, value)
            && (value.Error? ==> value.kind.Permanent? && value.stateChanged)
  {
    hide Inv, LaneSide, T.Coherent, T.Transition, T.Extends, FrontOk, PristineOk, RecordOk;
    LaneFacts(w);
    TransitionKeepsTable(w.table, w.birth, op.context.record.value, task);
    var (after, value) := T.Transition(w.table, task.id, task.expected, task.desired, task.update);
    if value.Stored? {
      TransitionKeepsFront(w, task.id, after);
    }
  }

  lemma TransitionKeepsFront(w: World, id: Id, after: T.Table)
    requires LaneSide(w) && id in w.activated && id in w.table.past
    requires after.past.Keys == w.table.past.Keys && after.rows.Keys == w.table.rows.Keys
    requires forall i :: i in w.table.past && i != id ==> after.past[i] == w.table.past[i]
    requires forall i :: i in w.table.rows && i != id ==> after.rows[i] == w.table.rows[i]
    ensures FrontOk(after, w.service.worker.commands) && PristineOk(after, w.service.operations)
  {
    forall o, i | Inserts(w.service.operations, o, i) ensures i != id {
      assert OperationOk(w.birth, w.activated, w.service.handed, w.service.operations[o]);
    }
    var commands := w.service.worker.commands;
    forall k | 0 <= k < |commands| ensures InsertPending(after, k, commands[k].1) {
      assert InsertPending(w.table, k, commands[k].1);
      assert TaskMatches(w.service.operations[commands[k].0], commands[k].1);
      if commands[k].1.InsertCommand? {
        assert Inserts(w.service.operations, commands[k].0, commands[k].1.record.id);
      }
    }
  }

  lemma ApplyCleanup(w: World, op: Operation, task: Task, removed: set<Id>)
    requires Inv(w) && HeadOf(w, op, task) && op.kind.Cleanup?
    requires T.IsCleanup(w.table, task.before, task.batch, removed)
    ensures var (after, value) := ApplyTask(w.table, task, removed);
            && TableOk(after, w.birth) && T.Extends(w.table, after)
            && FrontOk(after, w.service.worker.commands) && PristineOk(after, w.service.operations)
            && ValueMatches(op, value) && Current(after, w.birth, value)
  {
    T.RemoveKeeps(w.table, task.before, task.batch, removed);
    var after := T.Remove(w.table, removed);
    forall i | i in after.rows ensures RecordOk(w.birth, after.rows[i]) {
      assert RecordOk(w.birth, w.table.rows[i]);
    }
    forall k | 0 <= k < |w.service.worker.commands| ensures InsertPending(after, k, w.service.worker.commands[k].1) {
      assert InsertPending(w.table, k, w.service.worker.commands[k].1);
    }
  }

  lemma ApplyKeeps(w: World, removed: set<Id>)
    requires Inv(w) && |w.service.worker.commands| > 0
    requires var task := w.service.worker.commands[0].1;
             task.CleanupCommands? ==> T.IsCleanup(w.table, task.before, task.batch, removed)
    ensures w.service.worker.commands[0].0 in w.service.operations
    ensures var (after, value) := ApplyTask(w.table, w.service.worker.commands[0].1, removed);
            && Inv(w.(table := after)) && T.Extends(w.table, after)
            && ValueMatches(w.service.operations[w.service.worker.commands[0].0], value)
            && Current(after, w.birth, value)
            && (value.Error? ==> value.stateChanged)
  {
    hide T.Insert, T.Transition, T.FindRow;
    HeadFacts(w);
    var task := w.service.worker.commands[0].1;
    var op := w.service.operations[w.service.worker.commands[0].0];
    var (after, value) := ApplyTask(w.table, task, removed);
    if op.kind.Insert? {
      ApplyInsert(w, op, task);
      TableKeeps(w, after);
    } else if op.kind.Transition? {
      ApplyTransition(w, op, task);
      TableKeeps(w, after);
    } else if op.kind.Cleanup? {
      ApplyCleanup(w, op, task, removed);
      TableKeeps(w, after);
    } else {
      ApplyFind(w.table, w.birth, op, task);
    }
  }

  // ---------------------------------------------------------------- the answer reaches the result queue

  lemma PassAlong(results: seq<(nat, Value)>, commands: seq<(nat, Task)>, value: Value)
    requires |commands| > 0
    ensures Line(results + [(commands[0].0, value)], commands[1..]) == Line(results, commands)
    ensures Numbers(commands[1..]) == Numbers(commands)[1..]
  {
    AppendNumber(results, (commands[0].0, value));
    TailOfNumbers(commands);
  }

  lemma PopWorker(worker: Worker, after: Worker)
    requires |worker.commands| > 0 && WorkerOk(worker) && Ascending(Numbers(worker.commands))
    requires after == worker.(commands := worker.commands[1..], operations := worker.operations - {worker.commands[0].0})
    ensures WorkerOk(after)
  {
    TailOfNumbers(worker.commands);
    var numbers := Numbers(worker.commands);
    forall o ensures o in after.operations <==> o in numbers[1..] {
      if o in numbers && o != numbers[0] {
        var k :| 0 <= k < |numbers| && numbers[k] == o;
        assert numbers[1..][k - 1] == o;
      }
    }
  }

  lemma CommandsAscend(results: seq<(nat, Value)>, commands: seq<(nat, Task)>)
    requires Ascending(Line(results, commands))
    ensures Ascending(Numbers(commands))
  {
    var line := Line(results, commands);
    forall k, l | 0 <= k < l < |commands| ensures Numbers(commands)[k] < Numbers(commands)[l] {
      assert line[|results| + k] < line[|results| + l];
    }
  }

  lemma PopTasks(t: T.Table, operations: map<nat, Operation>, results: seq<(nat, Value)>, commands: seq<(nat, Task)>,
                 value: Value)
    requires |commands| > 0 && TasksOk(operations, commands) && ValuesOk(operations, results) && FrontOk(t, commands)
    requires commands[0].0 in operations && ValueMatches(operations[commands[0].0], value)
    ensures TasksOk(operations, commands[1..]) && FrontOk(t, commands[1..])
    ensures ValuesOk(operations, results + [(commands[0].0, value)])
  {
    forall k | 0 <= k < |commands[1..]| ensures InsertPending(t, k, commands[1..][k].1) {
      assert InsertPending(t, k + 1, commands[k + 1].1);
    }
  }

  lemma EmitKeepsLane(w: World, value: Value, after: Worker)
    requires LaneSide(w) && |w.service.worker.commands| > 0
    requires var o := w.service.worker.commands[0].0; o in w.service.operations && ValueMatches(w.service.operations[o], value)
    requires after == w.service.worker.(commands := w.service.worker.commands[1..],
                                        operations := w.service.worker.operations - {w.service.worker.commands[0].0})
    ensures LaneSide(w.(service := w.service.(worker := after), results := w.results + [(w.service.worker.commands[0].0, value)]))
  {
    hide TasksOk, ValuesOk, FrontOk, PristineOk, InsertsDistinct, OperationsOk, WorkerOk, ValueMatches, Line, Numbers;
    var commands := w.service.worker.commands;
    PassAlong(w.results, commands, value);
    CommandsAscend(w.results, commands);
    PopWorker(w.service.worker, after);
    PopTasks(w.table, w.service.operations, w.results, commands, value);
  }

  lemma EmitKeepsStore(w: World, o: nat, value: Value)
    requires StoreSide(w) && Current(w.table, w.birth, value)
    ensures StoreSide(w.(results := w.results + [(o, value)]))
  {
    var grown := w.results + [(o, value)];
    if Carried(value).Some? {
      var r := Carried(value).value;
      assert T.EntryCoherent(w.table, r.id);
      forall k | 0 <= k < |w.results| ensures InOrder(Carried(w.results[k].1), Carried(value)) {
        assert ResultOk(w.table, w.birth, w.known, w.results[k].1);
        var earlier := Carried(w.results[k].1);
        if earlier.Some? && earlier.value.id == r.id {
          T.SeenPrecedesLater(w.table, w.table, r.id, earlier.value.status);
        }
      }
      if r.id in w.known {
        T.SeenPrecedesLater(w.table, w.table, r.id, w.known[r.id]);
      }
    }
    assert ResultOk(w.table, w.birth, w.known, value);
    forall k, l | 0 <= k < l < |grown| ensures InOrder(Carried(grown[k].1), Carried(grown[l].1)) {
      if l < |w.results| {
        assert InOrder(Carried(w.results[k].1), Carried(w.results[l].1));
      }
    }
  }

  lemma EmitKeeps(w: World, value: Value, after: Worker)
    requires Inv(w) && |w.service.worker.commands| > 0 && Current(w.table, w.birth, value)
    requires var o := w.service.worker.commands[0].0; o in w.service.operations && ValueMatches(w.service.operations[o], value)
    requires after == w.service.worker.(commands := w.service.worker.commands[1..],
                                        operations := w.service.worker.operations - {w.service.worker.commands[0].0})
    ensures Inv(w.(service := w.service.(worker := after), results := w.results + [(w.service.worker.commands[0].0, value)]))
  {
    EmitKeepsLane(w, value, after);
    EmitKeepsStore(w, w.service.worker.commands[0].0, value);
  }

  /** Everything about the worker but its command FIFO. */
  ghost predicate SameLane(a: Worker, b: Worker) {
    a.commands == b.commands && a.operations == b.operations && a.limit == b.limit && a.stopped == b.stopped &&
    (b.accepting ==> a.accepting)
  }

  lemma SameLaneKeeps(w: World, worker: Worker)
    requires Inv(w) && SameLane(w.service.worker, worker)
    ensures Inv(w.(service := w.service.(worker := worker)))
  {
  }

  lemma StopKeeps(w: World, worker: Worker)
    requires Inv(w) && worker.stopped && !worker.accepting && worker.commands == [] && worker.operations == {}
    ensures Inv(w.(service := w.service.(worker := worker)))
  {
    var results := Line(w.results, []);
    var line := Line(w.results, w.service.worker.commands);
    assert results == Numbers(w.results);
    forall k | 0 <= k < |results| ensures results[k] in w.service.operations {
      assert w.results[k].0 == results[k];
    }
    forall k, l | 0 <= k < l < |results| ensures results[k] < results[l] {
      assert line[k] < line[l];
    }
  }

  /** The head task runs at the store; the answer may be lost, before or after the commit. */
  ghost function Executed(w: World, removed: set<Id>, committed: bool, lost: Option<ErrorKind>): World
    requires |w.service.worker.commands| > 0
  {
    var (after, value) := ApplyTask(w.table, w.service.worker.commands[0].1, removed);
    var answer := if lost.Some? then Error(lost.value, false) else value;
    var (worker, emitted) := FinishCommand(w.service.worker, answer);
    w.(table := if lost.None? || committed then after else w.table,
       service := w.service.(worker := worker),
       results := w.results + if emitted.Some? then [emitted.value] else [])
  }

  lemma ExecutedKeeps(w: World, removed: set<Id>, committed: bool, lost: Option<ErrorKind>)
    requires Inv(w) && |w.service.worker.commands| > 0
    requires var task := w.service.worker.commands[0].1;
             task.CleanupCommands? ==> T.IsCleanup(w.table, task.before, task.batch, removed)
    ensures Inv(Executed(w, removed, committed, lost)) && T.Extends(w.table, Executed(w, removed, committed, lost).table)
  {
    hide Inv, ApplyTask, T.Extends, RecordOk;
    ApplyKeeps(w, removed);
    var (after, value) := ApplyTask(w.table, w.service.worker.commands[0].1, removed);
    var moved := if lost.None? || committed then w.(table := after) else w;
    var answer := if lost.Some? then Error(lost.value, false) else value;
    var (worker, emitted) := FinishCommand(w.service.worker, answer);
    ExtendsItself(w.table);
    if emitted.None? {
      SameLaneKeeps(moved, worker);
      assert w.results + [] == w.results;
    } else {
      EmitKeeps(moved, answer, worker);
    }
  }

  lemma ExtendsItself(t: T.Table)
    ensures T.Extends(t, t)
  {
  }

  // ---------------------------------------------------------------- crash and restart

  function FreshWorker(limit: nat): Worker {
    Worker([], {}, limit, map[], {}, map[], false, true, false)
  }

  /** What a process reads from its configuration file. */
  datatype Settings = Settings(
    capacity: nat,
    configTimeout: nat,
    controlTimeout: nat,
    retention: nat,
    cleanupInterval: nat,
    cleanupBatch: nat)

  function SettingsOf(s: Service): Settings {
    Settings(s.capacity, s.configTimeout, s.controlTimeout, s.retention, s.cleanupInterval, s.cleanupBatch)
  }

  /** A new process: every map empty; only what left the old one (`sent`, `handed`) is still there. */
  function FreshService(s: Service, settings: Settings): Service {
    s.(capacity := settings.capacity, configTimeout := settings.configTimeout, controlTimeout := settings.controlTimeout,
       retention := settings.retention, cleanupInterval := settings.cleanupInterval, cleanupBatch := settings.cleanupBatch,
       nextOperation := 1, nextToken := 1, operations := map[], publications := map[], active := map[],
       recoveryStarted := {}, deferred := map[], early := map[], nextCleanup := None, outstanding := 0,
       databaseAvailable := true, mqttAvailable := true, worker := FreshWorker(settings.capacity))
  }

  function ActiveRows(t: T.Table): set<Id> {
    set i | i in t.rows && !IsTerminal(t.rows[i].status)
  }

  /** The configuration commands among the active rows, read before the control commands are recovered. */
  ghost predicate IsLoadable(t: T.Table, loaded: seq<Loaded>) {
    && (forall k :: 0 <= k < |loaded| ==>
          loaded[k].record.id in ActiveRows(t) && t.rows[loaded[k].record.id] == loaded[k].record &&
          loaded[k].record.kind.Config?)
    && (forall i :: i in ActiveRows(t) && t.rows[i].kind.Config? ==>
          exists k :: 0 <= k < |loaded| && loaded[k].record.id == i)
  }

  ghost function Restarted(w: World, loaded: seq<Loaded>, now: Time, settings: Settings): World {
    var service := SetMqttAvailable(LoadActive(FreshService(w.service, settings), loaded), false);
    w.(service := service, results := [], table := T.RecoverControls(w.table, now), activated := service.active.Keys)
  }

  lemma LoadOneKeepsActive(birth: map<Id, Origin>, activated: set<Id>, s: Service, loaded: Loaded)
    requires ActiveOk(birth, activated, s.active) && RecordOk(birth, loaded.record) && loaded.record.id in activated
    ensures var after := LoadOne(s, loaded);
            && after == s.(active := after.active)
            && ActiveOk(birth, activated, after.active)
            && |after.active| <= |s.active| + 1
  {
    var after := LoadOne(s, loaded);
    if after != s {
      SizeAfterUpdate(s.active, loaded.record.id, after.active[loaded.record.id]);
    }
    forall i | i in after.active ensures ActiveEntryOk(birth, activated, i, after.active[i]) {
      assert i in s.active ==> ActiveEntryOk(birth, activated, i, s.active[i]);
    }
  }

  lemma {:induction false} LoadKeepsActive(birth: map<Id, Origin>, activated: set<Id>, s: Service, loaded: seq<Loaded>)
    requires ActiveOk(birth, activated, s.active)
    requires forall k :: 0 <= k < |loaded| ==> RecordOk(birth, loaded[k].record) && loaded[k].record.id in activated
    ensures var after := LoadEach(s, loaded);
            && after == s.(active := after.active)
            && ActiveOk(birth, activated, after.active)
            && |after.active| <= |s.active| + |loaded|
    decreases loaded
  {
    hide ActiveOk, LoadOne, RecordOk;
    if loaded != [] {
      LoadOneKeepsActive(birth, activated, s, loaded[0]);
      LoadKeepsActive(birth, activated, LoadOne(s, loaded[0]), loaded[1..]);
    }
  }

  lemma RestartKeepsStore(w: World, now: Time)
    requires StoreSide(w)
    ensures StoreSide(w.(results := [], table := T.RecoverControls(w.table, now)))
    ensures T.Extends(w.table, T.RecoverControls(w.table, now))
  {
    var after := T.RecoverControls(w.table, now);
    T.RecoverKeeps(w.table, now);
    assert TableOk(after, w.birth) by {
      forall i | i in after.rows ensures RecordOk(w.birth, after.rows[i]) {
        assert RecordOk(w.birth, w.table.rows[i]);
      }
    }
    TableKeepsStore(w.(results := []), after);
  }

  lemma RestartKeepsService(w: World, loaded: seq<Loaded>, settings: Settings)
    requires TableOk(w.table, w.birth) && HandedOk(w.birth, w.service.handed)
    requires IsLoadable(w.table, loaded)
    ensures var after := SetMqttAvailable(LoadActive(FreshService(w.service, settings), loaded), false);
            && ActiveOk(w.birth, after.active.Keys, after.active) && |after.active| <= after.capacity
            && after == FreshService(w.service, settings).(active := after.active, mqttAvailable := false)
            && forall i :: i in after.active ==> i in w.birth
  {
    var blank := FreshService(w.service, settings);
    var ids := set k | 0 <= k < |loaded| :: loaded[k].record.id;
    forall k | 0 <= k < |loaded| ensures RecordOk(w.birth, loaded[k].record) && loaded[k].record.id in ids {
      assert RecordOk(w.birth, w.table.rows[loaded[k].record.id]);
    }
    LoadKeepsActive(w.birth, ids, blank, loaded);
    var after := LoadActive(blank, loaded);
    forall i | i in after.active ensures ActiveEntryOk(w.birth, after.active.Keys, i, after.active[i]) {
      assert |loaded| <= blank.capacity ==> ActiveEntryOk(w.birth, ids, i, after.active[i]);
    }
  }

  lemma BlankLane(w: World)
    requires w.results == [] && w.service.operations == map[] && w.service.worker == FreshWorker(w.service.capacity)
    requires w.service.outstanding == 0
    ensures LaneSide(w) && Admitting(w.service.operations) == {}
  {
    assert Line(w.results, w.service.worker.commands) == [];
  }

  lemma BlankService(w: World)
    requires w.service.publications == map[] && w.service.deferred == map[] && w.service.early == map[]
    requires HandedOk(w.birth, w.service.handed) && w.activated == w.service.active.Keys
    requires ActiveOk(w.birth, w.activated, w.service.active)
    requires forall i :: i in w.service.active ==> i in w.birth
    ensures ServiceSide(w)
  {
  }

  lemma SidesMakeInv(w: World)
    requires StoreSide(w) && LaneSide(w) && ServiceSide(w) && BoundOk(w.service.capacity, w.service.active, w.service.operations)
    ensures Inv(w)
  {
  }

  lemma RestartFacts(w: World)
    requires Inv(w)
    ensures StoreSide(w) && TableOk(w.table, w.birth) && HandedOk(w.birth, w.service.handed)
  {
  }

  lemma RestartKeeps(w: World, loaded: seq<Loaded>, now: Time, settings: Settings)
    requires Inv(w) && IsLoadable(w.table, loaded)
    ensures Inv(Restarted(w, loaded, now, settings)) && T.Extends(w.table, Restarted(w, loaded, now, settings).table)
  {
    hide Inv, LaneSide, ServiceSide, LoadActive, TableOk, HandedOk, ActiveOk, IsLoadable, T.Extends;
    hide KnownOk, ResultsOk, ResultsOrdered, SentOk, SentOrdered, T.RecoverControls;
    RestartFacts(w);
    RestartKeepsStore(w, now);
    RestartKeepsService(w, loaded, settings);
    var after := Restarted(w, loaded, now, settings);
    BlankLane(after);
    BlankService(after);
    SidesMakeInv(after);
  }
}
