/**
 The whole command system: the business thread, its result queue, the worker's FIFO inside it, and
 the table; with the invariant that every step of a run keeps.
 */
module CommandInvariant {
  import opened Wrappers
  import opened CommandState
  import opened PostgresWorker
  import opened CommandService
  import T = CommandStore

  /** An ACK of a device as it arrived. */
  datatype Receipt = Receipt(device: string, kind: CommandType, ack: DeviceAck)

  /** The record a command id was created with, and the ACKs received for it so far. */
  datatype Origin = Origin(record: Record, acks: set<Receipt>)

  /**
   `birth` is the origin of each command id, `known` the status last reported to the
   business thread, `activated` the ids that have been active in the running process.
   */
  datatype World = World(
    service: Service,
    results: seq<(nat, Value)>,
    table: T.Table,
    birth: map<Id, Origin>,
    known: map<Id, Status>,
    activated: set<Id>)

  // ---------------------------------------------------------------- records and contexts

  /** An ACK of that command from its target, and for success one that accepts, for progress one that reports it. */
  predicate Confirms(record: Record, receipt: Receipt, status: Status) {
    && receipt.ack.id == record.id && Some(receipt.device) == record.target && receipt.kind == record.kind
    && (status.Succeeded? ==>
          receipt.ack.status.Applied? || receipt.ack.status.AlreadyApplied? || receipt.ack.status.Accepted?)
    && (status.InProgress? ==> receipt.ack.status.Progress?)
  }

  /** Only the target device makes a command run or succeed. */
  ghost predicate Earned(origin: Origin, status: Status) {
    status.Succeeded? || status.InProgress? ==>
      origin.record.status == status || exists receipt :: receipt in origin.acks && Confirms(origin.record, receipt, status)
  }

  /** The record belongs to a known command that earned its status; configuration commands have no progress state. */
  ghost predicate RecordOk(birth: map<Id, Origin>, r: Record) {
    && r.id in birth && SameIdentity(r, birth[r.id].record) && (r.kind.Config? ==> !r.status.InProgress?)
    && Earned(birth[r.id], r.status)
  }

  ghost predicate ContextOk(birth: map<Id, Origin>, c: Context) {
    c.record.Some? ==>
      RecordOk(birth, c.record.value) && c.kind == c.record.value.kind && c.source == c.record.value.source
  }

  function Carried(value: Value): Option<Record> {
    match value
    case Found(found) => found
    case Stored(stored) => Some(stored)
    case _ => None
  }

  // ---------------------------------------------------------------- table, results, ACKs

  ghost predicate TableOk(t: T.Table, birth: map<Id, Origin>) {
    && T.Coherent(t)
    && t.past.Keys <= birth.Keys
    && (forall i :: i in t.rows ==> RecordOk(birth, t.rows[i]))
  }

  ghost predicate Reported(t: T.Table, id: Id, status: Status) {
    id in t.past && status in t.past[id]
  }

  ghost predicate KnownOk(t: T.Table, known: map<Id, Status>) {
    forall i :: i in known ==> Reported(t, i, known[i])
  }

  ghost predicate ResultOk(t: T.Table, birth: map<Id, Origin>, known: map<Id, Status>, value: Value) {
    Carried(value).Some? ==>
      var r := Carried(value).value;
      RecordOk(birth, r) && Reported(t, r.id, r.status) && (r.id in known ==> Precedes(known[r.id], r.status))
  }

  ghost predicate ResultsOk(t: T.Table, birth: map<Id, Origin>, known: map<Id, Status>, results: seq<(nat, Value)>) {
    forall k :: 0 <= k < |results| ==> ResultOk(t, birth, known, results[k].1)
  }

  ghost predicate InOrder(a: Option<Record>, b: Option<Record>) {
    a.Some? && b.Some? && a.value.id == b.value.id ==> Precedes(a.value.status, b.value.status)
  }

  ghost predicate ResultsOrdered(results: seq<(nat, Value)>) {
    forall k, l :: 0 <= k < l < |results| ==> InOrder(Carried(results[k].1), Carried(results[l].1))
  }

  function AckRecord(ack: SourceAck): Option<Record> {
    if ack.StatusAck? then Some(ack.record) else None
  }

  ghost predicate AckOk(t: T.Table, birth: map<Id, Origin>, known: map<Id, Status>, ack: SourceAck) {
    ack.StatusAck? ==>
      var r := ack.record;
      && RecordOk(birth, r) && ack.source == r.source
      && Reported(t, r.id, r.status) && r.id in known && Precedes(r.status, known[r.id])
  }

  ghost predicate SentOk(t: T.Table, birth: map<Id, Origin>, known: map<Id, Status>, sent: seq<SourceAck>) {
    forall k :: 0 <= k < |sent| ==> AckOk(t, birth, known, sent[k])
  }

  ghost predicate SentOrdered(sent: seq<SourceAck>) {
    forall k, l :: 0 <= k < l < |sent| ==> InOrder(AckRecord(sent[k]), AckRecord(sent[l]))
  }

  // ---------------------------------------------------------------- operations and the worker's FIFO

  ghost predicate WasHanded(handed: seq<Handover>, id: Id) {
    exists k :: 0 <= k < |handed| && handed[k].id == id
  }

  /** An id whose insert is still pending has never been active and never been handed over. */
  ghost predicate OperationOk(birth: map<Id, Origin>, activated: set<Id>, handed: seq<Handover>, op: Operation) {
    && ContextOk(birth, op.context)
    && match op.kind
       case Find => op.context.record.None?
       case Cleanup => true
       case Insert =>
         && op.context.record.Some?
         && op.context.record.value.id !in activated && !WasHanded(handed, op.context.record.value.id)
         && (op.context.record.value.status.Pending? || op.context.record.value.status.Failed?)
       case _ => op.context.record.Some? && op.context.record.value.id in activated
  }

  ghost predicate OperationsOk(birth: map<Id, Origin>, activated: set<Id>, handed: seq<Handover>,
                               operations: map<nat, Operation>) {
    forall o :: o in operations ==> OperationOk(birth, activated, handed, operations[o])
  }

  ghost predicate Inserts(operations: map<nat, Operation>, o: nat, id: Id) {
    o in operations && operations[o].kind.Insert? && operations[o].context.record.Some? &&
    operations[o].context.record.value.id == id
  }

  ghost predicate InsertsDistinct(operations: map<nat, Operation>) {
    forall o, p, id :: Inserts(operations, o, id) && Inserts(operations, p, id) ==> o == p
  }

  ghost predicate Cleans(operations: map<nat, Operation>, o: nat) {
    o in operations && operations[o].kind.Cleanup?
  }

  /** Never two cleanups at once. */
  ghost predicate OneCleanup(operations: map<nat, Operation>) {
    forall o, p :: Cleans(operations, o) && Cleans(operations, p) ==> o == p
  }

  ghost predicate TaskMatches(op: Operation, task: Task) {
    match op.kind
    case Find => task == FindCommand(op.context.source, op.context.parsed.request)
    case Cleanup => task.CleanupCommands?
    case Insert => op.context.record.Some? && task == InsertCommand(op.context.record.value)
    case FindByIdForConvergence => op.context.record.Some? && task == FindCommandById(op.context.record.value.id)
    case Transition => op.context.record.Some? && LegalTask(op.context.record.value, task)
  }

  /** A transition task that stores `desired` and never trips the store's guard. */
  ghost predicate LegalTask(desired: Record, task: Task) {
    task.TransitionCommand? && task.id == desired.id && task.desired == desired.status &&
    CanTransition(task.expected, task.desired)
  }

  ghost predicate ValueMatches(op: Operation, value: Value) {
    value.Error? ||
    match op.kind
    case Find =>
      value.Found? && (value.found.Some? ==>
        value.found.value.source == op.context.source && value.found.value.request == op.context.parsed.request)
    case Cleanup => value.Removed?
    case Insert =>
      op.context.record.Some? && value.Stored? && T.SameKey(value.stored, op.context.record.value) &&
      (value.stored.id == op.context.record.value.id ==> value.stored.status == op.context.record.value.status)
    case FindByIdForConvergence =>
      op.context.record.Some? && value.Found? &&
      (value.found.Some? ==> value.found.value.id == op.context.record.value.id)
    case Transition =>
      op.context.record.Some? && value.Stored? && value.stored.id == op.context.record.value.id &&
      value.stored.status == op.context.record.value.status
  }

  /** Everything submitted and not yet handled, oldest first: unhandled results, then the worker's FIFO. */
  function Line(results: seq<(nat, Value)>, commands: seq<(nat, Task)>): seq<nat> {
    Numbers(results) + Numbers(commands)
  }

  ghost predicate Ascending(line: seq<nat>) {
    forall k, l :: 0 <= k < l < |line| ==> line[k] < line[l]
  }

  /** Each outstanding operation is in the line exactly once, in submission order. */
  ghost predicate LineOk(operations: set<nat>, next: nat, line: seq<nat>, stopped: bool) {
    && Ascending(line)
    && (forall o :: o in operations ==> o < next)
    && (forall o :: o in line ==> o in operations)
    && (forall o :: o in operations && !stopped ==> o in line)
  }

  ghost predicate TasksOk(operations: map<nat, Operation>, commands: seq<(nat, Task)>) {
    forall k :: 0 <= k < |commands| ==>
      commands[k].0 in operations && TaskMatches(operations[commands[k].0], commands[k].1)
  }

  ghost predicate ValuesOk(operations: map<nat, Operation>, results: seq<(nat, Value)>) {
    forall k :: 0 <= k < |results| ==>
      results[k].0 in operations && ValueMatches(operations[results[k].0], results[k].1)
  }

  ghost predicate WorkerOk(worker: Worker) {
    && (forall o :: o in worker.operations <==> o in Numbers(worker.commands))
    && (worker.stopped ==> !worker.accepting && worker.commands == [])
  }

  /** Only the insert at the head of the FIFO may already be committed, and then its row is there. */
  ghost predicate InsertPending(t: T.Table, k: nat, task: Task) {
    task.InsertCommand? && task.record.id in t.past ==>
      k == 0 && task.record.id in t.rows && T.SameKey(t.rows[task.record.id], task.record)
  }

  /** While an insert is outstanding nobody else touches its row. */
  ghost predicate PristineOk(t: T.Table, operations: map<nat, Operation>) {
    forall o, id :: Inserts(operations, o, id) && id in t.past ==>
      T.Last(t, id) == operations[o].context.record.value.status
  }

  ghost predicate FrontOk(t: T.Table, commands: seq<(nat, Task)>) {
    forall k :: 0 <= k < |commands| ==> InsertPending(t, k, commands[k].1)
  }

  // ---------------------------------------------------------------- the maps of the service

  ghost predicate ActiveEntryOk(birth: map<Id, Origin>, activated: set<Id>, id: Id, c: Context) {
    ContextOk(birth, c) && c.record.Some? && c.record.value.id == id && !IsTerminal(c.record.value.status) &&
    id in activated
  }

  ghost predicate ActiveOk(birth: map<Id, Origin>, activated: set<Id>, active: map<Id, Context>) {
    forall i :: i in active ==> ActiveEntryOk(birth, activated, i, active[i])
  }

  /** No resurrection: an id that left the active map is known to be terminal. */
  ghost predicate ActivatedOk(birth: map<Id, Origin>, known: map<Id, Status>, activated: set<Id>,
                              active: map<Id, Context>) {
    forall i :: i in activated ==> i in birth && (i in active || (i in known && IsTerminal(known[i])))
  }

  ghost predicate PublicationOk(birth: map<Id, Origin>, activated: set<Id>, c: Context) {
    ContextOk(birth, c) && c.record.Some? && c.record.value.id in activated &&
    (c.record.value.status.Pending? || c.record.value.status.Dispatched?)
  }

  ghost predicate PublicationsOk(birth: map<Id, Origin>, activated: set<Id>, publications: map<nat, Context>) {
    forall p :: p in publications ==> PublicationOk(birth, activated, publications[p])
  }

  ghost predicate DeferredEntryOk(birth: map<Id, Origin>, activated: set<Id>, id: Id, d: Deferred) {
    ContextOk(birth, d.context) && d.context.record.Some? && d.context.record.value.id == id &&
    LegalTask(d.context.record.value, d.task) && id in activated
  }

  ghost predicate DeferredOk(birth: map<Id, Origin>, activated: set<Id>, deferred: map<Id, Deferred>) {
    forall i :: i in deferred ==> DeferredEntryOk(birth, activated, i, deferred[i])
  }

  ghost predicate EarlyOk(birth: map<Id, Origin>, early: map<Id, EarlyAck>) {
    forall i :: i in early ==>
      && early[i].ack.id == i && i in birth && AckBelongs(birth[i].record.kind, early[i].ack.status)
      && Receipt(early[i].device, birth[i].record.kind, early[i].ack) in birth[i].acks
  }

  ghost predicate HandoverOk(birth: map<Id, Origin>, h: Handover) {
    && h.id in birth && h.kind == birth[h.id].record.kind
    && h.source == birth[h.id].record.source && h.request == birth[h.id].record.request
  }

  /** No control command is handed to the device publisher twice. */
  ghost predicate HandedOk(birth: map<Id, Origin>, handed: seq<Handover>) {
    && (forall k :: 0 <= k < |handed| ==> HandoverOk(birth, handed[k]))
    && (forall k, l :: 0 <= k < l < |handed| && handed[k].kind.Control? ==> handed[k].id != handed[l].id)
  }

  function Admitting(operations: map<nat, Operation>): set<nat> {
    set o | o in operations && (operations[o].kind.Find? || operations[o].kind.Insert?)
  }

  ghost predicate BoundOk(capacity: nat, active: map<Id, Context>, operations: map<nat, Operation>) {
    |active| + |Admitting(operations)| <= capacity
  }

  ghost predicate StoreSide(w: World) {
    && TableOk(w.table, w.birth)
    && KnownOk(w.table, w.known)
    && ResultsOk(w.table, w.birth, w.known, w.results)
    && ResultsOrdered(w.results)
    && SentOk(w.table, w.birth, w.known, w.service.sent)
    && SentOrdered(w.service.sent)
  }

  ghost predicate LaneSide(w: World) {
    && OperationsOk(w.birth, w.activated, w.service.handed, w.service.operations)
    && InsertsDistinct(w.service.operations)
    && OneCleanup(w.service.operations)
    && LineOk(w.service.operations.Keys, w.service.nextOperation, Line(w.results, w.service.worker.commands),
              w.service.worker.stopped)
    && TasksOk(w.service.operations, w.service.worker.commands)
    && ValuesOk(w.service.operations, w.results)
    && WorkerOk(w.service.worker)
    && FrontOk(w.table, w.service.worker.commands)
    && PristineOk(w.table, w.service.operations)
    && w.service.outstanding == |w.service.operations|
  }

  ghost predicate ServiceSide(w: World) {
    && ActiveOk(w.birth, w.activated, w.service.active)
    && ActivatedOk(w.birth, w.known, w.activated, w.service.active)
    && PublicationsOk(w.birth, w.activated, w.service.publications)
    && DeferredOk(w.birth, w.activated, w.service.deferred)
    && EarlyOk(w.birth, w.service.early)
    && HandedOk(w.birth, w.service.handed)
  }

  ghost predicate Inv(w: World) {
    && StoreSide(w) && LaneSide(w) && ServiceSide(w)
    && BoundOk(w.service.capacity, w.service.active, w.service.operations)
  }
}
