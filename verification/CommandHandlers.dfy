/** The invariant is kept by every handler of the command service. */
module CommandHandlers {
  import opened Wrappers
  import opened CommandState
  import opened PostgresWorker
  import opened CommandService
  import opened CommandInvariant
  import opened CommandBlocks
  import T = CommandStore

  // ---------------------------------------------------------------- taking a result off the queue

  function Learn(known: map<Id, Status>, value: Value): map<Id, Status> {
    if Carried(value).Some? then known[Carried(value).value.id := Carried(value).value.status] else known
  }

  ghost function Absorb(w: World): World
    requires |w.results| > 0
  {
    w.(service := w.service.(operations := w.service.operations - {w.results[0].0},
                             outstanding := w.service.outstanding - 1),
       results := w.results[1..],
       known := Learn(w.known, w.results[0].1))
  }

  lemma LearnKeepsResults(t: T.Table, birth: map<Id, Origin>, known: map<Id, Status>, results: seq<(nat, Value)>)
    requires |results| > 0 && ResultsOk(t, birth, known, results) && ResultsOrdered(results)
    ensures ResultsOk(t, birth, Learn(known, results[0].1), results[1..]) && ResultsOrdered(results[1..])
  {
    var rest := results[1..];
    assert ResultOk(t, birth, known, results[0].1);
    forall k | 0 <= k < |rest| ensures ResultOk(t, birth, Learn(known, results[0].1), rest[k].1) {
      assert ResultOk(t, birth, known, results[k + 1].1);
      assert InOrder(Carried(results[0].1), Carried(results[k + 1].1));
    }
    forall k, l | 0 <= k < l < |rest| ensures InOrder(Carried(rest[k].1), Carried(rest[l].1)) {
      assert InOrder(Carried(results[k + 1].1), Carried(results[l + 1].1));
    }
  }

  lemma LearnKeepsSent(t: T.Table, birth: map<Id, Origin>, known: map<Id, Status>, sent: seq<SourceAck>, value: Value)
    requires SentOk(t, birth, known, sent) && ResultOk(t, birth, known, value)
    ensures SentOk(t, birth, Learn(known, value), sent)
  {
    forall k | 0 <= k < |sent| ensures AckOk(t, birth, Learn(known, value), sent[k]) {
      assert AckOk(t, birth, known, sent[k]);
    }
  }

  lemma TailOfLine(operations: set<nat>, next: nat, line: seq<nat>, stopped: bool)
    requires |line| > 0 && LineOk(operations, next, line, stopped)
    ensures LineOk(operations - {line[0]}, next, line[1..], stopped)
    ensures forall k :: 0 < k < |line| ==> line[k] != line[0]
    ensures line[0] in operations
  {
    var rest := line[1..];
    forall k, l | 0 <= k < l < |rest| ensures rest[k] < rest[l] {
      assert line[k + 1] < line[l + 1];
    }
    forall o | o in operations - {line[0]} && !stopped ensures o in rest {
      var k :| 0 <= k < |line| && line[k] == o;
      assert rest[k - 1] == o;
    }
    forall o | o in rest ensures o in operations - {line[0]} {
      var k :| 0 <= k < |rest| && rest[k] == o;
      assert line[k + 1] == o;
    }
  }

  lemma TailOfNumbers<X>(queue: seq<(nat, X)>)
    requires |queue| > 0
    ensures Numbers(queue[1..]) == Numbers(queue)[1..]
  {
  }

  lemma LineParts(results: seq<(nat, Value)>, commands: seq<(nat, Task)>)
    requires |results| > 0
    ensures Line(results[1..], commands) == Line(results, commands)[1..]
    ensures Line(results, commands)[0] == results[0].0
    ensures forall k :: 0 <= k < |commands| ==> commands[k].0 in Line(results, commands)[1..]
    ensures forall k :: 0 < k < |results| ==> results[k].0 in Line(results, commands)[1..]
  {
    TailOfNumbers(results);
    var rest := Line(results, commands)[1..];
    forall k | 0 <= k < |commands| ensures commands[k].0 in rest {
      assert rest[|results| - 1 + k] == commands[k].0;
    }
    forall k | 0 < k < |results| ensures results[k].0 in rest {
      assert rest[k - 1] == results[k].0;
    }
  }

  lemma TakeFromLine(operations: map<nat, Operation>, next: nat, worker: Worker, results: seq<(nat, Value)>)
    requires |results| > 0
    requires LineOk(operations.Keys, next, Line(results, worker.commands), worker.stopped)
    ensures results[0].0 in operations
    ensures var rest := operations - {results[0].0};
            && LineOk(rest.Keys, next, Line(results[1..], worker.commands), worker.stopped)
            && |rest| == |operations| - 1
    ensures forall k :: 0 <= k < |worker.commands| ==> worker.commands[k].0 != results[0].0
    ensures forall k :: 0 < k < |results| ==> results[k].0 != results[0].0
  {
    var line := Line(results, worker.commands);
    LineParts(results, worker.commands);
    TailOfLine(operations.Keys, next, line, worker.stopped);
    var rest := operations - {results[0].0};
    assert rest.Keys == operations.Keys - {line[0]};
    assert operations == rest[line[0] := operations[line[0]]];
    assert line[0] !in line[1..];
  }

  lemma RemoveFromTasks(operations: map<nat, Operation>, commands: seq<(nat, Task)>, o: nat)
    requires TasksOk(operations, commands) && forall k :: 0 <= k < |commands| ==> commands[k].0 != o
    ensures TasksOk(operations - {o}, commands)
  {
  }

  lemma RemoveFromValues(operations: map<nat, Operation>, results: seq<(nat, Value)>)
    requires |results| > 0 && ValuesOk(operations, results)
    requires forall k :: 0 < k < |results| ==> results[k].0 != results[0].0
    ensures ValuesOk(operations - {results[0].0}, results[1..])
  {
  }

  lemma AbsorbKeepsLane(w: World)
    requires LaneSide(w) && |w.results| > 0
    ensures LaneSide(Absorb(w))
  {
    TakeFromLine(w.service.operations, w.service.nextOperation, w.service.worker, w.results);
    RemoveFromTasks(w.service.operations, w.service.worker.commands, w.results[0].0);
    RemoveFromValues(w.service.operations, w.results);
    var rest := w.service.operations - {w.results[0].0};
    forall o, p, id | Inserts(rest, o, id) && Inserts(rest, p, id) ensures o == p {
      assert Inserts(w.service.operations, o, id) && Inserts(w.service.operations, p, id);
    }
    forall o, p | Cleans(rest, o) && Cleans(rest, p) ensures o == p {
      assert Cleans(w.service.operations, o) && Cleans(w.service.operations, p);
    }
    assert OperationsOk(w.birth, w.activated, w.service.handed, rest);
    forall p, id | Inserts(rest, p, id) && id in w.table.past
      ensures T.Last(w.table, id) == rest[p].context.record.value.status
    {
      assert Inserts(w.service.operations, p, id);
    }
  }

  lemma AbsorbKeepsStore(w: World)
    requires StoreSide(w) && |w.results| > 0
    ensures StoreSide(Absorb(w))
  {
    assert ResultOk(w.table, w.birth, w.known, w.results[0].1);
    LearnKeepsResults(w.table, w.birth, w.known, w.results);
    LearnKeepsSent(w.table, w.birth, w.known, w.service.sent, w.results[0].1);
    assert KnownOk(w.table, Learn(w.known, w.results[0].1));
  }

  lemma LearnKeepsActivated(t: T.Table, birth: map<Id, Origin>, known: map<Id, Status>, activated: set<Id>,
                            active: map<Id, Context>, value: Value)
    requires ActivatedOk(birth, known, activated, active) && ResultOk(t, birth, known, value)
    ensures ActivatedOk(birth, Learn(known, value), activated, active)
    ensures Carried(value).Some? ==>
              var r := Carried(value).value;
              r.id in activated && !IsTerminal(r.status) ==> r.id in active
  {
  }

  lemma RemoveAdmitting(operations: map<nat, Operation>, o: nat)
    requires o in operations
    ensures |Admitting(operations - {o})| ==
            |Admitting(operations)| - if operations[o].kind.Find? || operations[o].kind.Insert? then 1 else 0
  {
    if operations[o].kind.Find? || operations[o].kind.Insert? {
      assert Admitting(operations) == Admitting(operations - {o}) + {o};
    } else {
      assert Admitting(operations) == Admitting(operations - {o});
    }
  }

  /** What the handler of a result may rely on once the result is off the queue. */
  ghost predicate Absorbed(w: World, op: Operation, value: Value) {
    && OperationOk(w.birth, w.activated, w.service.handed, op)
    && ValueMatches(op, value)
    && (op.kind.Insert? ==> forall o :: !Inserts(w.service.operations, o, op.context.record.value.id))
    && (op.kind.Find? || op.kind.Insert? ==>
          |w.service.active| + |Admitting(w.service.operations)| < w.service.capacity)
    && (Carried(value).Some? ==> Heard(w, Carried(value).value))
  }

  ghost predicate Heard(w: World, r: Record) {
    && RecordOk(w.birth, r) && r.id in w.known && w.known[r.id] == r.status
    && (r.id in w.activated && !IsTerminal(r.status) ==> r.id in w.service.active)
  }

  lemma AbsorbKeeps(w: World)
    requires Inv(w) && |w.results| > 0
    ensures Inv(Absorb(w))
    ensures w.results[0].0 in w.service.operations
    ensures Absorbed(Absorb(w), w.service.operations[w.results[0].0], w.results[0].1)
  {
    var (o, value) := w.results[0];
    var op := w.service.operations[o];
    AbsorbKeepsStore(w);
    AbsorbKeepsLane(w);
    assert ResultOk(w.table, w.birth, w.known, value);
    LearnKeepsActivated(w.table, w.birth, w.known, w.activated, w.service.active, value);
    RemoveAdmitting(w.service.operations, o);
    if op.kind.Insert? {
      var id := op.context.record.value.id;
      forall p | Inserts(w.service.operations - {o}, p, id) ensures false {
        assert Inserts(w.service.operations, p, id) && Inserts(w.service.operations, o, id);
      }
    }
  }

  // ---------------------------------------------------------------- device ACKs

  /** The origins after an ACK arrived; one for an unknown command id is not kept. */
  function Received(birth: map<Id, Origin>, receipt: Receipt): map<Id, Origin> {
    var id := receipt.ack.id;
    if id in birth then birth[id := birth[id].(acks := birth[id].acks + {receipt})] else birth
  }

  lemma ReceivedKeepsEarned(birth: map<Id, Origin>, receipt: Receipt, id: Id, status: Status)
    requires id in birth && Earned(birth[id], status)
    ensures Earned(Received(birth, receipt)[id], status)
  {
  }

  lemma ReceivedKeepsRecords(birth: map<Id, Origin>, receipt: Receipt)
    ensures forall r :: RecordOk(birth, r) ==> RecordOk(Received(birth, receipt), r)
  {
    forall r | RecordOk(birth, r) ensures RecordOk(Received(birth, receipt), r) {
      ReceivedKeepsEarned(birth, receipt, r.id, r.status);
    }
  }

  lemma ReceivedKeepsStore(w: World, receipt: Receipt)
    requires StoreSide(w)
    ensures StoreSide(w.(birth := Received(w.birth, receipt)))
  {
    var birth := Received(w.birth, receipt);
    ReceivedKeepsRecords(w.birth, receipt);
    hide RecordOk;
    forall k | 0 <= k < |w.results| ensures ResultOk(w.table, birth, w.known, w.results[k].1) {
      assert ResultOk(w.table, w.birth, w.known, w.results[k].1);
    }
    forall k | 0 <= k < |w.service.sent| ensures AckOk(w.table, birth, w.known, w.service.sent[k]) {
      assert AckOk(w.table, w.birth, w.known, w.service.sent[k]);
    }
  }

  lemma ReceivedKeepsMaps(w: World, receipt: Receipt)
    requires ServiceSide(w)
    ensures ServiceSide(w.(birth := Received(w.birth, receipt)))
  {
    var birth := Received(w.birth, receipt);
    ReceivedKeepsRecords(w.birth, receipt);
    hide RecordOk;
    forall i | i in w.service.active ensures ActiveEntryOk(birth, w.activated, i, w.service.active[i]) {
      assert ActiveEntryOk(w.birth, w.activated, i, w.service.active[i]);
    }
    forall p | p in w.service.publications ensures PublicationOk(birth, w.activated, w.service.publications[p]) {
      assert PublicationOk(w.birth, w.activated, w.service.publications[p]);
    }
    forall i | i in w.service.deferred ensures DeferredEntryOk(birth, w.activated, i, w.service.deferred[i]) {
      assert DeferredEntryOk(w.birth, w.activated, i, w.service.deferred[i]);
    }
    forall k | 0 <= k < |w.service.handed| ensures HandoverOk(birth, w.service.handed[k]) {
      assert HandoverOk(w.birth, w.service.handed[k]);
    }
  }

  lemma ReceivedKeepsLane(w: World, receipt: Receipt)
    requires LaneSide(w)
    ensures LaneSide(w.(birth := Received(w.birth, receipt)))
  {
    var birth := Received(w.birth, receipt);
    ReceivedKeepsRecords(w.birth, receipt);
    hide RecordOk, Received;
    forall o | o in w.service.operations
      ensures OperationOk(birth, w.activated, w.service.handed, w.service.operations[o])
    {
      assert OperationOk(w.birth, w.activated, w.service.handed, w.service.operations[o]);
    }
  }

  /** An ACK that arrives is remembered, and everything that held still holds. */
  lemma ReceivedKeeps(w: World, receipt: Receipt)
    requires Inv(w)
    ensures Inv(w.(birth := Received(w.birth, receipt)))
    ensures receipt.ack.id in w.birth ==> receipt in Received(w.birth, receipt)[receipt.ack.id].acks
  {
    ReceivedKeepsStore(w, receipt);
    ReceivedKeepsMaps(w, receipt);
    ReceivedKeepsLane(w, receipt);
    hide StoreSide, ServiceSide, LaneSide;
  }

  lemma BufferKeeps(w: World, device: string, ack: DeviceAck, kind: CommandType, now: Time)
    requires Inv(w) && ack.id in w.birth && AckBelongs(w.birth[ack.id].record.kind, ack.status)
    requires Receipt(device, w.birth[ack.id].record.kind, ack) in w.birth[ack.id].acks
    ensures Inv(w.(service := BufferEarly(w.service, device, ack, kind, now)))
  {
    assert EarlyOk(w.birth, w.service.early[ack.id := EarlyAck(device, ack, now)]);
  }

  lemma AckIsLegal(birth: map<Id, Origin>, activated: set<Id>, id: Id, context: Context, device: string, ack: DeviceAck,
                   now: Time, deadline: Time)
    requires ActiveEntryOk(birth, activated, id, context) && !context.record.value.status.Pending?
    requires AckBelongs(context.kind, ack.status) && ack.id == id && context.record.value.target == Some(device)
    requires Receipt(device, context.kind, ack) in birth[id].acks
    ensures var record := context.record.value;
            var after := context.(record := Some(AckedRecord(record, ack, now)), deadline := deadline);
            ContextOk(birth, after) && LegalTask(after.record.value, AckTask(record, ack, now))
  {
    var status := AckedRecord(context.record.value, ack, now).status;
    assert Confirms(birth[id].record, Receipt(device, context.kind, ack), status);
  }

  lemma ActiveFacts(w: World, id: Id)
    requires Inv(w) && id in w.service.active
    ensures ActiveEntryOk(w.birth, w.activated, id, w.service.active[id])
  {
  }

  lemma DeviceAckKeeps(w: World, device: string, ack: DeviceAck, kind: CommandType, now: Time)
    requires Inv(w) && AckBelongs(kind, ack.status)
    requires ack.id in w.birth ==> Receipt(device, kind, ack) in w.birth[ack.id].acks
    ensures Inv(w.(service := HandleDeviceAck(w.service, device, ack, kind, now)))
  {
    hide Inv;
    hide SubmitTransitionOrDefer;
    if AckConcerns(w.service, device, ack, kind) {
      var context := w.service.active[ack.id];
      ActiveFacts(w, ack.id);
      if context.record.value.status.Pending? {
        BufferKeeps(w, device, ack, kind, now);
      } else {
        var record := context.record.value;
        var deadline := if ack.status.Progress? then now + w.service.controlTimeout else context.deadline;
        AckIsLegal(w.birth, w.activated, ack.id, context, device, ack, now, deadline);
        TransitionKeeps(w, context.(record := Some(AckedRecord(record, ack, now)), deadline := deadline),
                        AckTask(record, ack, now));
      }
    }
  }

  lemma DeviceAckLeavesActive(s: Service, device: string, ack: DeviceAck, kind: CommandType, now: Time)
    ensures HandleDeviceAck(s, device, ack, kind, now).active == s.active
  {
    hide SubmitTransitionOrDefer;
    if AckConcerns(s, device, ack, kind) {
      var context := s.active[ack.id];
      var deadline := if ack.status.Progress? then now + s.controlTimeout else context.deadline;
      var record := context.record.value;
      TransitionLeavesActive(s, context.(record := Some(AckedRecord(record, ack, now)), deadline := deadline),
                             AckTask(record, ack, now));
    }
  }

  lemma TransitionLeavesActive(s: Service, context: Context, task: Task)
    requires task.TransitionCommand?
    ensures SubmitTransitionOrDefer(s, context, task).active == s.active
  {
  }

  // ---------------------------------------------------------------- stored rows

  /** The world after a handler: whatever is active now has been active. */
  ghost function After(w: World, s: Service): World {
    w.(service := s, activated := w.activated + s.active.Keys)
  }

  lemma AfterIsQuiet(w: World, s: Service)
    requires Inv(w) && s.active.Keys <= w.service.active.Keys
    ensures After(w, s) == w.(service := s)
  {
    forall i | i in s.active ensures i in w.activated {
      assert ActiveEntryOk(w.birth, w.activated, i, w.service.active[i]);
    }
    assert w.activated + s.active.Keys == w.activated;
  }

  lemma AfterIsActivate(w: World, id: Id, context: Context, s: Service)
    requires Inv(w) && s.active == w.service.active[id := context]
    ensures After(w, s) == Activate(w, id, context).(service := s)
  {
    forall i | i in w.service.active ensures i in w.activated {
      assert ActiveEntryOk(w.birth, w.activated, i, w.service.active[i]);
    }
    assert w.activated + s.active.Keys == w.activated + {id};
  }

  lemma ContextFollows(birth: map<Id, Origin>, context: Context, record: Record)
    requires ContextOk(birth, context) && context.record.Some? && RecordOk(birth, record)
    requires context.record.value.id == record.id
    ensures ContextOk(birth, context.(record := Some(record)))
  {
  }

  lemma ForgetEarlyKeeps(w: World, id: Id)
    requires Inv(w) && id in w.service.early
    ensures Inv(w.(service := w.service.(early := w.service.early - {id})))
    ensures var early := w.service.early[id];
            && id in w.birth && AckBelongs(w.birth[id].record.kind, early.ack.status) && early.ack.id == id
            && Receipt(early.device, w.birth[id].record.kind, early.ack) in w.birth[id].acks
  {
    assert EarlyOk(w.birth, w.service.early - {id});
  }

  lemma ReplayKeeps(w: World, id: Id, kind: CommandType)
    requires Inv(w) && id in w.service.early && id in w.birth && w.birth[id].record.kind == kind
    ensures var early := w.service.early[id];
            var s := HandleDeviceAck(w.service.(early := w.service.early - {id}), early.device, early.ack, kind, early.receivedAt);
            Inv(w.(service := s)) && s.active == w.service.active
  {
    hide Inv;
    hide HandleDeviceAck;
    var early := w.service.early[id];
    ForgetEarlyKeeps(w, id);
    var less := w.(service := w.service.(early := w.service.early - {id}));
    DeviceAckKeeps(less, early.device, early.ack, kind, early.receivedAt);
    DeviceAckLeavesActive(less.service, early.device, early.ack, kind, early.receivedAt);
  }

  lemma PersistedTerminalKeeps(w: World, context: Context, record: Record)
    requires Inv(w) && ContextOk(w.birth, context.(record := Some(record))) && Heard(w, record)
    requires IsTerminal(record.status)
    ensures Inv(After(w, HandlePersisted(w.service, context, record)))
  {
    hide Inv;
    var stored := context.(record := Some(record));
    AckKeeps(w, stored);
    DropKeeps(w.(service := PublishAck(w.service, stored)), record.id);
    AfterIsQuiet(w, HandlePersisted(w.service, context, record));
  }

  lemma PersistedActiveKeeps(w: World, context: Context, record: Record)
    requires Inv(w) && ContextOk(w.birth, context.(record := Some(record))) && Heard(w, record)
    requires !IsTerminal(record.status) && record.id in w.activated
    ensures Inv(After(w, HandlePersisted(w.service, context, record)))
  {
    hide Inv;
    hide HandleDeviceAck;
    var stored := context.(record := Some(record));
    AckKeeps(w, stored);
    var acked := w.(service := PublishAck(w.service, stored));
    ActivateKeeps(acked, record.id, stored);
    var kept := Activate(acked, record.id, stored);
    if record.status.Dispatched? && record.id in kept.service.early {
      ReplayKeeps(kept, record.id, context.kind);
    }
    AfterIsActivate(w, record.id, stored, HandlePersisted(w.service, context, record));
  }

  lemma FirstStoredKeeps(w: World, context: Context, record: Record, now: Time, accepted: bool)
    requires Inv(w) && Heard(w, record) && context.record == Some(record) && ContextOk(w.birth, context)
    requires record.status.Pending?
    requires record.id !in w.activated && !WasHanded(w.service.handed, record.id)
    requires forall o :: !Inserts(w.service.operations, o, record.id)
    requires |w.service.active| + |Admitting(w.service.operations)| < w.service.capacity
    ensures Inv(After(w, PublishRecord(w.service.(active := w.service.active[record.id := context]), context, now, accepted)))
  {
    hide Inv;
    hide PublishRecord;
    ActivateKeeps(w, record.id, context);
    var active := Activate(w, record.id, context);
    PublishKeeps(active, context, now, accepted);
    PublishLeavesActive(active.service, context, now, accepted);
    AfterIsActivate(w, record.id, context, PublishRecord(active.service, context, now, accepted));
  }

  lemma PublishLeavesActive(s: Service, context: Context, now: Time, accepted: bool)
    ensures PublishRecord(s, context, now, accepted).active == s.active
  {
  }

  lemma StoredKeeps(w: World, op: Operation, record: Record, now: Time, accepted: bool)
    requires Inv(w) && Absorbed(w, op, Stored(record)) && (op.kind.Insert? || op.kind.Transition?)
    ensures Inv(After(w, HandleStored(w.service, op, record, now, accepted)))
  {
    hide Inv;
    hide HandlePersisted;
    hide PublishRecord;
    hide SubmitTransitionOrDefer;
    var context := op.context;
    var mine := context.record.value;
    if op.kind.Insert? && mine.id != record.id {
      if CompareRequest(record, mine.payload).Conflict? {
        RejectKeeps(w, context.source, context.kind, Some(mine.request), "idempotency_conflict");
      } else {
        AckKeeps(w, context.(record := Some(record)));
      }
      AfterIsQuiet(w, HandleStored(w.service, op, record, now, accepted));
    } else {
      ContextFollows(w.birth, context, record);
      if IsTerminal(record.status) {
        PersistedTerminalKeeps(w, context, record);
      } else if op.kind.Transition? {
        PersistedActiveKeeps(w, context, record);
      } else {
        FirstStoredKeeps(w, context.(record := Some(record)), record, now, accepted);
      }
    }
  }

  // ---------------------------------------------------------------- the other results

  /** A command id just generated: its first row, and no ACK yet. */
  function Born(context: Context, answers: Answers): Origin {
    Origin(NewRecord(context, answers.freshId, answers.resolution), {})
  }

  lemma BirthKeepsStore(w: World, id: Id, created: Origin)
    requires StoreSide(w) && id !in w.birth
    ensures StoreSide(w.(birth := w.birth[id := created]))
  {
    var birth := w.birth[id := created];
    assert TableOk(w.table, birth) by {
      forall i | i in w.table.rows ensures RecordOk(birth, w.table.rows[i]) {
        assert RecordOk(w.birth, w.table.rows[i]);
      }
    }
    forall k | 0 <= k < |w.results| ensures ResultOk(w.table, birth, w.known, w.results[k].1) {
      assert ResultOk(w.table, w.birth, w.known, w.results[k].1);
    }
    forall k | 0 <= k < |w.service.sent| ensures AckOk(w.table, birth, w.known, w.service.sent[k]) {
      assert AckOk(w.table, w.birth, w.known, w.service.sent[k]);
    }
  }

  lemma BirthKeepsMaps(w: World, id: Id, created: Origin)
    requires ServiceSide(w) && id !in w.birth
    ensures ServiceSide(w.(birth := w.birth[id := created]))
  {
    var birth := w.birth[id := created];
    forall i | i in w.service.active ensures ActiveEntryOk(birth, w.activated, i, w.service.active[i]) {
      assert ActiveEntryOk(w.birth, w.activated, i, w.service.active[i]);
    }
    forall p | p in w.service.publications ensures PublicationOk(birth, w.activated, w.service.publications[p]) {
      assert PublicationOk(w.birth, w.activated, w.service.publications[p]);
    }
    forall i | i in w.service.deferred ensures DeferredEntryOk(birth, w.activated, i, w.service.deferred[i]) {
      assert DeferredEntryOk(w.birth, w.activated, i, w.service.deferred[i]);
    }
    forall k | 0 <= k < |w.service.handed| ensures HandoverOk(birth, w.service.handed[k]) {
      assert HandoverOk(w.birth, w.service.handed[k]);
    }
  }

  /** A freshly generated command id is unknown everywhere. */
  lemma BirthKeeps(w: World, id: Id, created: Origin)
    requires Inv(w) && id !in w.birth
    ensures Inv(w.(birth := w.birth[id := created]))
    ensures id !in w.activated && !WasHanded(w.service.handed, id) && id !in w.table.past
    ensures forall o :: !Inserts(w.service.operations, o, id)
  {
    BirthKeepsStore(w, id, created);
    BirthKeepsMaps(w, id, created);
    var birth := w.birth[id := created];
    forall o | o in w.service.operations
      ensures OperationOk(birth, w.activated, w.service.handed, w.service.operations[o])
    {
      assert OperationOk(w.birth, w.activated, w.service.handed, w.service.operations[o]);
    }
    forall o ensures !Inserts(w.service.operations, o, id) {
    }
    assert !WasHanded(w.service.handed, id);
  }

  lemma CreateKeeps(w: World, context: Context, id: Id, resolution: Resolution)
    requires Inv(w) && context.record.None? && id !in w.birth
    requires |w.service.active| + |Admitting(w.service.operations)| < w.service.capacity
    ensures var record := NewRecord(context, id, resolution);
            Inv(w.(birth := w.birth[id := Origin(record, {})],
                   service := Submit(w.service, Insert, context.(record := Some(record)), InsertCommand(record)).0))
  {
    hide Inv;
    hide Submit;
    var record := NewRecord(context, id, resolution);
    BirthKeeps(w, id, Origin(record, {}));
    SubmitKeeps(w.(birth := w.birth[id := Origin(record, {})]), Insert, context.(record := Some(record)), InsertCommand(record));
  }

  lemma FoundKeeps(w: World, op: Operation, existing: Record, answers: Answers)
    requires Inv(w) && Absorbed(w, op, Found(Some(existing))) && op.kind.Find?
    ensures Inv(w.(service := HandleFound(w.service, op.context, Some(existing), answers)))
  {
    hide Inv;
    var context := op.context;
    if CompareRequest(existing, context.parsed.payload).Conflict? {
      RejectKeeps(w, context.source, context.kind, Some(context.parsed.request), "idempotency_conflict");
    } else {
      AckKeeps(w, context.(record := Some(existing)));
    }
  }

  lemma ConflictKeeps(w: World, op: Operation)
    requires Inv(w) && OperationOk(w.birth, w.activated, w.service.handed, op) && op.kind.Transition?
    ensures Inv(w.(service := HandleTransitionConflict(w.service, op.context)))
  {
    hide Inv;
    hide Submit;
    SubmitKeeps(w, FindByIdForConvergence, op.context, FindCommandById(op.context.record.value.id));
    var (submitted, accepted) := Submit(w.service, FindByIdForConvergence, op.context, FindCommandById(op.context.record.value.id));
    FlagKeeps(w.(service := submitted), false, submitted.mqttAvailable, submitted.recoveryStarted, submitted.nextCleanup);
  }

  lemma ConflictLeavesActive(s: Service, context: Context)
    requires context.record.Some?
    ensures HandleTransitionConflict(s, context).active == s.active
  {
  }

  lemma ConvergeTerminalKeeps(w: World, context: Context, current: Record)
    requires Inv(w) && ContextOk(w.birth, context) && context.record.Some? && context.record.value.id == current.id
    requires Heard(w, current) && IsTerminal(current.status)
    ensures Inv(w.(service := ConvergeAfterConflict(w.service, context, current)))
    ensures ConvergeAfterConflict(w.service, context, current).active.Keys <= w.service.active.Keys
  {
    hide Inv;
    var seen := context.(record := Some(current));
    DropKeeps(w, current.id);
    if current.id in w.service.active {
      AckKeeps(w.(service := Drop(w.service, current.id)), seen);
    }
  }

  lemma ConvergeKeeps(w: World, op: Operation, current: Record)
    requires Inv(w) && Absorbed(w, op, Found(Some(current))) && op.kind.FindByIdForConvergence?
    ensures Inv(After(w, ConvergeAfterConflict(w.service, op.context, current)))
  {
    hide Inv;
    hide SubmitTransitionOrDefer;
    var s := w.service;
    var context := op.context;
    var desired := context.record.value;
    var seen := context.(record := Some(current));
    if IsTerminal(current.status) {
      ConvergeTerminalKeeps(w, context, current);
      AfterIsQuiet(w, ConvergeAfterConflict(s, context, current));
    } else if current.status != desired.status && CanTransition(current.status, desired.status) {
      var task := TransitionCommand(current.id, current.status, desired.status,
                                    Update(desired.errorCode, desired.deviceAck, desired.dispatchedAt,
                                           desired.completedAt, desired.updatedAt));
      TransitionKeeps(w, context, task);
      TransitionLeavesActive(s, context, task);
      AfterIsQuiet(w, ConvergeAfterConflict(s, context, current));
    } else {
      ContextFollows(w.birth, context, current);
      ActivateKeeps(w, current.id, seen);
      AfterIsActivate(w, current.id, seen, ConvergeAfterConflict(s, context, current));
    }
  }

  lemma FlagKeeps(w: World, databaseAvailable: bool, mqttAvailable: bool, recoveryStarted: set<Id>, nextCleanup: Option<Time>)
    requires Inv(w)
    ensures Inv(w.(service := w.service.(databaseAvailable := databaseAvailable, mqttAvailable := mqttAvailable,
                                         recoveryStarted := recoveryStarted, nextCleanup := nextCleanup)))
  {
  }

  /** The id a handler creates, when its lookup found nothing. */
  ghost predicate Creates(op: Operation, value: Value) {
    op.kind.Find? && value == Found(None)
  }

  ghost function Handled(w: World, op: Operation, value: Value, now: Time, answers: Answers): World {
    var after := After(w, HandleValue(w.service, op, value, now, answers));
    if Creates(op, value) then
      after.(birth := w.birth[answers.freshId := Born(op.context, answers)])
    else after
  }

  lemma ErrorKeeps(w: World, op: Operation, value: Value, now: Time, answers: Answers)
    requires Inv(w) && Absorbed(w, op, value) && value.Error?
    ensures Inv(w.(service := HandleValue(w.service, op, value, now, answers)))
    ensures HandleValue(w.service, op, value, now, answers).active == w.service.active
  {
    hide Inv;
    hide HandleTransitionConflict;
    if op.kind.Transition? && value.stateChanged && op.context.record.Some? {
      ConflictKeeps(w, op);
      ConflictLeavesActive(w.service, op.context);
    } else {
      FlagKeeps(w, false, w.service.mqttAvailable, w.service.recoveryStarted, w.service.nextCleanup);
    }
  }

  lemma FoundLeavesActive(s: Service, context: Context, found: Option<Record>, answers: Answers)
    ensures HandleFound(s, context, found, answers).active == s.active
  {
  }

  lemma ValueKeeps(w: World, op: Operation, value: Value, now: Time, answers: Answers)
    requires Inv(w) && Absorbed(w, op, value)
    requires Creates(op, value) ==> answers.freshId !in w.birth
    ensures Inv(Handled(w, op, value, now, answers))
  {
    hide Inv;
    hide HandleStored, ConvergeAfterConflict, HandleFound, HandleTransitionConflict;
    var after := HandleValue(w.service, op, value, now, answers);
    if value.Error? {
      ErrorKeeps(w, op, value, now, answers);
      AfterIsQuiet(w, after);
    } else if op.kind.Find? {
      FoundLeavesActive(w.service, op.context, value.found, answers);
      if value.found.Some? {
        FoundKeeps(w, op, value.found.value, answers);
      } else {
        NothingFoundKeeps(w, op, answers);
      }
      AfterIsQuiet(w, after);
    } else if op.kind.FindByIdForConvergence? && value.found.Some? {
      ConvergeKeeps(w, op, value.found.value);
    } else if op.kind.Insert? || op.kind.Transition? {
      StoredKeeps(w, op, value.stored, now, answers.accepted);
    } else {
      AfterIsQuiet(w, after);
    }
  }

  lemma NothingFoundKeeps(w: World, op: Operation, answers: Answers)
    requires Inv(w) && Absorbed(w, op, Found(None)) && op.kind.Find? && answers.freshId !in w.birth
    ensures Inv(w.(birth := w.birth[answers.freshId := Born(op.context, answers)],
                   service := HandleFound(w.service, op.context, None, answers)))
  {
    hide Inv;
    CreateKeeps(w, op.context, answers.freshId, answers.resolution);
  }
}
