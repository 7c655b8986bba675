/** The invariant is kept by each building block the handlers of the command service are made of. */
module CommandBlocks {
  import opened Wrappers
  import opened Collections
  import opened CommandState
  import opened PostgresWorker
  import opened CommandService
  import opened CommandInvariant
  import T = CommandStore

  // ---------------------------------------------------------------- submitting to the worker

  ghost predicate MaySubmit(w: World, op: Operation, task: Task) {
    && OperationOk(w.birth, w.activated, w.service.handed, op)
    && TaskMatches(op, task)
    && (op.kind.Insert? ==>
          op.context.record.value.id !in w.table.past &&
          forall o :: !Inserts(w.service.operations, o, op.context.record.value.id))
    && (op.kind.Cleanup? ==> forall o :: !Cleans(w.service.operations, o))
    && (op.kind.Find? || op.kind.Insert? ==>
          |w.service.active| + |Admitting(w.service.operations)| < w.service.capacity)
  }

  lemma AddToOperations(birth: map<Id, Origin>, activated: set<Id>, handed: seq<Handover>,
                        operations: map<nat, Operation>, next: nat, op: Operation)
    requires OperationsOk(birth, activated, handed, operations) && OperationOk(birth, activated, handed, op)
    ensures OperationsOk(birth, activated, handed, operations[next := op])
  {
  }

  lemma AddToInserts(operations: map<nat, Operation>, next: nat, op: Operation)
    requires InsertsDistinct(operations) && next !in operations
    requires op.kind.Insert? && op.context.record.Some? ==>
               forall o :: !Inserts(operations, o, op.context.record.value.id)
    ensures InsertsDistinct(operations[next := op])
  {
    var grown := operations[next := op];
    forall o, p, id | Inserts(grown, o, id) && Inserts(grown, p, id) ensures o == p {
      assert o != next ==> Inserts(operations, o, id);
      assert p != next ==> Inserts(operations, p, id);
    }
  }

  lemma AddToCleanups(operations: map<nat, Operation>, next: nat, op: Operation)
    requires OneCleanup(operations) && next !in operations
    requires op.kind.Cleanup? ==> forall o :: !Cleans(operations, o)
    ensures OneCleanup(operations[next := op])
  {
    var grown := operations[next := op];
    forall o, p | Cleans(grown, o) && Cleans(grown, p) ensures o == p {
      assert o != next ==> Cleans(operations, o);
      assert p != next ==> Cleans(operations, p);
    }
  }

  lemma AddToPristine(t: T.Table, operations: map<nat, Operation>, next: nat, op: Operation)
    requires PristineOk(t, operations) && next !in operations
    requires op.kind.Insert? && op.context.record.Some? ==> op.context.record.value.id !in t.past
    ensures PristineOk(t, operations[next := op])
  {
    var grown := operations[next := op];
    forall o, id | Inserts(grown, o, id) && id in t.past
      ensures T.Last(t, id) == grown[o].context.record.value.status
    {
      assert o != next ==> Inserts(operations, o, id);
    }
  }

  lemma AddToTasks(operations: map<nat, Operation>, commands: seq<(nat, Task)>, next: nat, op: Operation, task: Task)
    requires TasksOk(operations, commands) && next !in operations && TaskMatches(op, task)
    ensures TasksOk(operations[next := op], commands + [(next, task)])
  {
  }

  lemma AddToValues(operations: map<nat, Operation>, results: seq<(nat, Value)>, next: nat, op: Operation)
    requires ValuesOk(operations, results) && next !in operations
    ensures ValuesOk(operations[next := op], results)
  {
  }

  lemma AddToFront(t: T.Table, commands: seq<(nat, Task)>, next: nat, task: Task)
    requires FrontOk(t, commands)
    requires task.InsertCommand? ==> task.record.id !in t.past
    ensures FrontOk(t, commands + [(next, task)])
  {
  }

  lemma AddToWorker(worker: Worker, next: nat, task: Task)
    requires WorkerOk(worker) && SubmitCommand(worker, next, task).1
    ensures WorkerOk(SubmitCommand(worker, next, task).0)
    ensures Numbers(SubmitCommand(worker, next, task).0.commands) == Numbers(worker.commands) + [next]
  {
    AppendNumber(worker.commands, (next, task));
  }

  lemma AddToLine(operations: map<nat, Operation>, worker: Worker, results: seq<(nat, Value)>, next: nat, op: Operation,
                  task: Task)
    requires LineOk(operations.Keys, next, Line(results, worker.commands), worker.stopped)
    requires SubmitCommand(worker, next, task).1
    ensures var after := SubmitCommand(worker, next, task).0;
            && LineOk(operations[next := op].Keys, next + 1, Line(results, after.commands), after.stopped)
            && next !in operations && |operations[next := op]| == |operations| + 1
  {
    var after := SubmitCommand(worker, next, task).0;
    AppendToLine(operations.Keys, next, Line(results, worker.commands), worker.stopped);
    LineGrows(results, worker.commands, next, task);
    hide Line, LineOk;
    SizeAfterUpdate(operations, next, op);
  }

  lemma LineGrows(results: seq<(nat, Value)>, commands: seq<(nat, Task)>, next: nat, task: Task)
    ensures Line(results, commands + [(next, task)]) == Line(results, commands) + [next]
  {
    AppendNumber(commands, (next, task));
  }

  lemma SubmitKeepsLane(w: World, op: Operation, task: Task)
    requires LaneSide(w) && MaySubmit(w, op, task)
    requires SubmitCommand(w.service.worker, w.service.nextOperation, task).1
    ensures LaneSide(w.(service := Submit(w.service, op.kind, op.context, task).0))
  {
    var s := w.service;
    AddToLine(s.operations, s.worker, w.results, s.nextOperation, op, task);
    AddToWorker(s.worker, s.nextOperation, task);
    AddToOperations(w.birth, w.activated, s.handed, s.operations, s.nextOperation, op);
    AddToInserts(s.operations, s.nextOperation, op);
    AddToCleanups(s.operations, s.nextOperation, op);
    AddToPristine(w.table, s.operations, s.nextOperation, op);
    AddToTasks(s.operations, s.worker.commands, s.nextOperation, op, task);
    AddToValues(s.operations, w.results, s.nextOperation, op);
    AddToFront(w.table, s.worker.commands, s.nextOperation, task);
  }

  lemma SubmitKeeps(w: World, kind: OperationKind, context: Context, task: Task)
    requires Inv(w) && MaySubmit(w, Operation(kind, context), task)
    ensures Inv(w.(service := Submit(w.service, kind, context, task).0))
  {
    var s := w.service;
    var (worker, accepted) := SubmitCommand(s.worker, s.nextOperation, task);
    if accepted {
      SubmitKeepsLane(w, Operation(kind, context), task);
      AppendToLine(s.operations.Keys, s.nextOperation, Line(w.results, s.worker.commands), s.worker.stopped);
      SubmitKeepsAdmission(s.operations, s.nextOperation, Operation(kind, context));
    }
  }

  lemma AppendNumber<X>(queue: seq<(nat, X)>, entry: (nat, X))
    ensures Numbers(queue + [entry]) == Numbers(queue) + [entry.0]
  {
  }

  lemma AppendToLine(operations: set<nat>, next: nat, line: seq<nat>, stopped: bool)
    requires LineOk(operations, next, line, stopped)
    ensures LineOk(operations + {next}, next + 1, line + [next], stopped)
    ensures next !in operations && next !in line
  {
    assert forall k :: 0 <= k < |line| ==> line[k] in line;
  }

  lemma SubmitKeepsAdmission(operations: map<nat, Operation>, next: nat, op: Operation)
    requires next !in operations
    ensures Admitting(operations[next := op]) ==
            Admitting(operations) + if op.kind.Find? || op.kind.Insert? then {next} else {}
  {
  }

  // ---------------------------------------------------------------- transitions, at once or later

  /** The caller wants to store `context.record` by `task`. */
  ghost predicate MayTransition(w: World, context: Context, task: Task) {
    ContextOk(w.birth, context) && context.record.Some? && LegalTask(context.record.value, task) &&
    context.record.value.id in w.activated
  }

  lemma TransitionKeeps(w: World, context: Context, task: Task)
    requires Inv(w) && MayTransition(w, context, task)
    ensures Inv(w.(service := SubmitTransitionOrDefer(w.service, context, task)))
  {
    var (submitted, accepted) := Submit(w.service, Transition, context, task);
    SubmitKeeps(w, Transition, context, task);
    if accepted {
      assert DeferredOk(w.birth, w.activated, submitted.deferred - {task.id});
    } else {
      assert DeferredOk(w.birth, w.activated, submitted.deferred[task.id := Deferred(context, task)]);
    }
  }

  lemma ForgetDeferredKeeps(w: World, id: Id)
    requires Inv(w)
    ensures Inv(w.(service := w.service.(deferred := w.service.deferred - {id})))
  {
    assert DeferredOk(w.birth, w.activated, w.service.deferred - {id});
  }

  lemma DeferKeeps(w: World, id: Id, d: Deferred)
    requires Inv(w) && DeferredEntryOk(w.birth, w.activated, id, d)
    ensures Inv(w.(service := w.service.(databaseAvailable := false, deferred := w.service.deferred[id := d])))
  {
    assert DeferredOk(w.birth, w.activated, w.service.deferred[id := d]);
  }

  lemma DeferredFacts(w: World, id: Id)
    requires Inv(w) && id in w.service.deferred
    ensures DeferredEntryOk(w.birth, w.activated, id, w.service.deferred[id])
  {
  }

  lemma RetryKeeps(w: World, id: Id)
    requires Inv(w) && id in w.service.deferred
    ensures w.service.deferred[id].task.TransitionCommand? && w.service.deferred[id].task.id == id
    ensures Inv(w.(service := RetryDeferred(w.service, id)))
  {
    hide Inv;
    hide Submit;
    var s := w.service;
    var d := s.deferred[id];
    DeferredFacts(w, id);
    if s.databaseAvailable {
      ForgetDeferredKeeps(w, id);
      var less := w.(service := s.(deferred := s.deferred - {id}));
      SubmitKeeps(less, Transition, d.context, d.task);
      var (submitted, accepted) := Submit(less.service, Transition, d.context, d.task);
      if !accepted {
        DeferKeeps(less.(service := submitted), id, d);
      }
    }
  }

  // ---------------------------------------------------------------- source ACKs

  lemma RejectKeeps(w: World, source: string, kind: CommandType, request: Option<string>, error: string)
    requires Inv(w)
    ensures Inv(w.(service := Reject(w.service, source, kind, request, error)))
  {
    AddAck(w.table, w.birth, w.known, w.service.sent, Rejection(source, kind, request, error));
  }

  lemma AddAck(t: T.Table, birth: map<Id, Origin>, known: map<Id, Status>, sent: seq<SourceAck>, ack: SourceAck)
    requires SentOk(t, birth, known, sent) && SentOrdered(sent) && AckOk(t, birth, known, ack)
    requires ack.StatusAck? ==> known[ack.record.id] == ack.record.status
    ensures SentOk(t, birth, known, sent + [ack]) && SentOrdered(sent + [ack])
  {
    var grown := sent + [ack];
    forall k, l | 0 <= k < l < |grown| ensures InOrder(AckRecord(grown[k]), AckRecord(grown[l])) {
      if l < |sent| {
        assert InOrder(AckRecord(sent[k]), AckRecord(sent[l]));
      } else {
        assert AckOk(t, birth, known, sent[k]);
      }
    }
  }

  /** Only the status the database reported last may be acknowledged. */
  lemma AckKeeps(w: World, context: Context)
    requires Inv(w)
    requires context.record.Some? ==>
               var r := context.record.value;
               RecordOk(w.birth, r) && r.source == context.source && r.id in w.known && w.known[r.id] == r.status
    ensures Inv(w.(service := PublishAck(w.service, context)))
  {
    if context.record.Some? {
      AddAck(w.table, w.birth, w.known, w.service.sent, StatusAck(context.source, context.kind, context.record.value));
    }
  }

  // ---------------------------------------------------------------- the active map

  lemma RemoveActive(birth: map<Id, Origin>, known: map<Id, Status>, activated: set<Id>, active: map<Id, Context>, id: Id)
    requires ActiveOk(birth, activated, active) && ActivatedOk(birth, known, activated, active)
    requires id in known && IsTerminal(known[id])
    ensures ActiveOk(birth, activated, active - {id}) && ActivatedOk(birth, known, activated, active - {id})
    ensures |active - {id}| <= |active|
  {
    if id in active {
      assert active == (active - {id})[id := active[id]];
    } else {
      assert active - {id} == active;
    }
  }

  lemma DropKeeps(w: World, id: Id)
    requires Inv(w) && id in w.known && IsTerminal(w.known[id])
    ensures Inv(w.(service := Drop(w.service, id)))
  {
    RemoveActive(w.birth, w.known, w.activated, w.service.active, id);
    assert EarlyOk(w.birth, w.service.early - {id});
  }

  ghost function Activate(w: World, id: Id, context: Context): World {
    w.(service := w.service.(active := w.service.active[id := context]), activated := w.activated + {id})
  }

  lemma AddActive(birth: map<Id, Origin>, known: map<Id, Status>, activated: set<Id>, active: map<Id, Context>, id: Id,
                  context: Context)
    requires ActiveOk(birth, activated, active) && ActivatedOk(birth, known, activated, active)
    requires ContextOk(birth, context) && context.record.Some? && context.record.value.id == id
    requires !IsTerminal(context.record.value.status)
    ensures ActiveOk(birth, activated + {id}, active[id := context])
    ensures ActivatedOk(birth, known, activated + {id}, active[id := context])
  {
    var grown := active[id := context];
    forall i | i in grown ensures ActiveEntryOk(birth, activated + {id}, i, grown[i]) {
      assert i != id ==> ActiveEntryOk(birth, activated, i, active[i]);
    }
  }

  lemma ActivatedGrows(w: World, id: Id)
    requires OperationsOk(w.birth, w.activated, w.service.handed, w.service.operations)
    requires PublicationsOk(w.birth, w.activated, w.service.publications)
    requires DeferredOk(w.birth, w.activated, w.service.deferred)
    requires id !in w.activated ==> forall o :: !Inserts(w.service.operations, o, id)
    ensures OperationsOk(w.birth, w.activated + {id}, w.service.handed, w.service.operations)
    ensures PublicationsOk(w.birth, w.activated + {id}, w.service.publications)
    ensures DeferredOk(w.birth, w.activated + {id}, w.service.deferred)
  {
    forall o | o in w.service.operations
      ensures OperationOk(w.birth, w.activated + {id}, w.service.handed, w.service.operations[o])
    {
      assert OperationOk(w.birth, w.activated, w.service.handed, w.service.operations[o]);
      if w.service.operations[o].kind.Insert? {
        assert Inserts(w.service.operations, o, w.service.operations[o].context.record.value.id);
      }
    }
    forall i | i in w.service.deferred
      ensures DeferredEntryOk(w.birth, w.activated + {id}, i, w.service.deferred[i])
    {
      assert DeferredEntryOk(w.birth, w.activated, i, w.service.deferred[i]);
    }
  }

  lemma ActivateKeeps(w: World, id: Id, context: Context)
    requires Inv(w)
    requires ContextOk(w.birth, context) && context.record.Some? && context.record.value.id == id
    requires !IsTerminal(context.record.value.status)
    requires id !in w.activated ==> forall o :: !Inserts(w.service.operations, o, id)
    requires id !in w.service.active ==>
               |w.service.active| + |Admitting(w.service.operations)| < w.service.capacity
    ensures Inv(Activate(w, id, context))
  {
    AddActive(w.birth, w.known, w.activated, w.service.active, id, context);
    SizeAfterUpdate(w.service.active, id, context);
    ActivatedGrows(w, id);
  }

  // ---------------------------------------------------------------- handing a command to the device publisher

  /** A control command may be handed over only if it never was; an insert still pending never is. */
  ghost predicate MayPublish(w: World, context: Context) {
    context.record.Some? ==>
      && PublicationOk(w.birth, w.activated, context)
      && (context.kind.Control? ==> !WasHanded(w.service.handed, context.record.value.id))
  }

  lemma AddHandover(birth: map<Id, Origin>, handed: seq<Handover>, h: Handover)
    requires HandedOk(birth, handed) && HandoverOk(birth, h)
    requires h.kind.Control? ==> !WasHanded(handed, h.id)
    ensures HandedOk(birth, handed + [h])
    ensures forall id :: WasHanded(handed + [h], id) ==> WasHanded(handed, id) || id == h.id
  {
    var grown := handed + [h];
    forall k, l | 0 <= k < l < |grown| && grown[k].kind.Control? ensures grown[k].id != grown[l].id {
      if l == |handed| {
        assert HandoverOk(birth, handed[k]);
        assert handed[k].id == h.id ==> WasHanded(handed, h.id);
      }
    }
    forall id | WasHanded(grown, id) ensures WasHanded(handed, id) || id == h.id {
      var k :| 0 <= k < |grown| && grown[k].id == id;
      assert k < |handed| ==> handed[k].id == id;
    }
  }

  lemma CallKeeps(w: World, context: Context, record: Record, accepted: bool)
    requires Inv(w) && context.record == Some(record) && MayPublish(w, context)
    ensures Inv(w.(service := CallPublisher(w.service, context, record, accepted)))
  {
    var h := Handover(record.id, context.kind, context.source, record.request, accepted);
    AddHandover(w.birth, w.service.handed, h);
    forall o | o in w.service.operations
      ensures OperationOk(w.birth, w.activated, w.service.handed + [h], w.service.operations[o])
    {
      assert OperationOk(w.birth, w.activated, w.service.handed, w.service.operations[o]);
    }
    assert PublicationsOk(w.birth, w.activated, w.service.publications[w.service.nextToken := context]);
  }

  lemma PublishKeeps(w: World, context: Context, now: Time, accepted: bool)
    requires Inv(w) && MayPublish(w, context)
    ensures Inv(w.(service := PublishRecord(w.service, context, now, accepted)))
  {
    hide Inv;
    hide SubmitTransitionOrDefer;
    var s := w.service;
    if context.record.Some? && context.record.value.target.Some? && s.mqttAvailable && !context.parsed.body.RejectedBody? {
      var record := context.record.value;
      CallKeeps(w, context, record, accepted);
      if !accepted {
        var failed := Decide(record, Failed, Some("mqtt_publish_failed"), now);
        TransitionKeeps(w.(service := CallPublisher(s, context, record, accepted)), context.(record := Some(failed)),
          TransitionCommand(record.id, record.status, Failed, Update(failed.errorCode, None, None, Some(now), now)));
      }
    }
  }
}
