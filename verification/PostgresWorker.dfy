/**
 The database thread: a command FIFO that survives outages, provisioning tasks that do not, and
 one merged pending write per device.

 `Worker` with its functions specifies one critical section each; class `PostgresWorker` performs
 them in place. What the store port answered is a parameter.
 */
module PostgresWorker {
  import opened Wrappers
  import opened CommandState
  import D = DeviceTypes

  datatype Task =
    | FindCommand(source: string, request: string)
    | FindCommandById(id: Id)
    | InsertCommand(record: Record)
    | TransitionCommand(id: Id, expected: Status, desired: Status, update: Update)
    | CleanupCommands(before: Time, batch: nat)

  datatype ErrorKind = Unavailable | Permanent

  datatype Value =
    | Found(found: Option<Record>)
    | Stored(stored: Record)
    | Removed(count: nat)
    | Error(kind: ErrorKind, stateChanged: bool)

  datatype Provision = Provision(registration: D.Registration, at: Time)

  /** How a provisioning or write call to the store ended. */
  datatype Answer<+T> = Done(value: T) | Refused(kind: ErrorKind)

  datatype Worker = Worker(
    commands: seq<(nat, Task)>,
    operations: set<nat>,
    limit: nat,
    provisions: map<D.DeviceId, Provision>,
    provisioning: set<D.DeviceId>,
    writes: map<D.DeviceId, D.DeviceWrite>,
    unavailable: bool,
    accepting: bool,
    stopped: bool)

  function SubmitProvision(w: Worker, registration: D.Registration, at: Time): (Worker, bool) {
    if !w.accepting || w.unavailable || registration.device in w.provisioning then (w, false)
    else (w.(provisions := w.provisions[registration.device := Provision(registration, at)]), true)
  }

  /** Flags accumulate; the record of the newest revision wins. */
  function Merge(current: D.DeviceWrite, write: D.DeviceWrite): D.DeviceWrite {
    D.DeviceWrite(
      if write.revision >= current.revision then write.record else current.record,
      if write.revision >= current.revision then write.revision else current.revision,
      current.writeMetadata || write.writeMetadata,
      current.writeStatus || write.writeStatus,
      current.writeTelemetry || write.writeTelemetry,
      if write.urgency.Immediate? then D.Immediate else current.urgency)
  }

  function MergeWrite(w: Worker, write: D.DeviceWrite): Worker {
    var device := write.record.device;
    if device in w.writes then w.(writes := w.writes[device := Merge(w.writes[device], write)])
    else w.(writes := w.writes[device := write])
  }

  function SubmitWrite(w: Worker, write: D.DeviceWrite): (Worker, bool) {
    if !w.accepting then (w, false) else (MergeWrite(w, write), true)
  }

  function SubmitCommand(w: Worker, operation: nat, task: Task): (Worker, bool) {
    if !w.accepting || operation in w.operations || |w.operations| >= w.limit then (w, false)
    else (w.(operations := w.operations + {operation}, commands := w.commands + [(operation, task)]), true)
  }

  function Outage(w: Worker): Worker {
    w.(unavailable := true, provisions := map[])
  }

  /** The store answered the command at the head of the FIFO; an outage leaves it there. */
  function FinishCommand(w: Worker, value: Value): (Worker, Option<(nat, Value)>)
    requires |w.commands| > 0
  {
    if value.Error? && value.kind.Unavailable? then (Outage(w), None)
    else
      var operation := w.commands[0].0;
      (w.(commands := w.commands[1..], operations := w.operations - {operation}), Some((operation, value)))
  }

  function TakeProvision(w: Worker, device: D.DeviceId): Worker
    requires device in w.provisions
  {
    w.(provisions := w.provisions - {device}, provisioning := w.provisioning + {device})
  }

  function FinishProvision(w: Worker, device: D.DeviceId, answer: Answer<D.DeviceRecord>): (Worker, D.DatabaseResult) {
    var cleared := w.(provisioning := w.provisioning - {device}, provisions := w.provisions - {device});
    match answer
    case Done(record) => (cleared, D.Provisioned(device, record))
    case Refused(Unavailable) => (Outage(cleared), D.DatabaseUnavailable(device, 0))
    case Refused(Permanent) => (cleared, D.PermanentFailure(Some(device), 0))
  }

  function TakeWrite(w: Worker, device: D.DeviceId): (Worker, D.DeviceWrite)
    requires device in w.writes
  {
    (w.(writes := w.writes - {device}), w.writes[device])
  }

  function FinishWrite(w: Worker, write: D.DeviceWrite, answer: Answer<()>): (Worker, D.DatabaseResult) {
    var device := write.record.device;
    match answer
    case Done(_) => (w, D.WriteCompleted(device, write.revision))
    case Refused(Unavailable) => (Outage(MergeWrite(w, write)), D.DatabaseUnavailable(device, write.revision))
    case Refused(Permanent) => (w, D.PermanentFailure(Some(device), write.revision))
  }

  function Reconnect(w: Worker, answer: Answer<()>): (Worker, Option<D.DatabaseResult>)
    requires w.unavailable
  {
    match answer
    case Done(_) => (w.(unavailable := false), Some(D.DatabaseRecovered))
    case Refused(Unavailable) => (w, None)
    case Refused(Permanent) =>
      (w.(accepting := false, stopped := true, provisions := map[], writes := map[], commands := [],
          operations := {}), Some(D.PermanentFailure(None, 0)))
  }

  /** The operation ids in a queue, in order. */
  function Numbers<X>(queue: seq<(nat, X)>): (numbers: seq<nat>)
    ensures |numbers| == |queue| && forall k :: 0 <= k < |queue| ==> numbers[k] == queue[k].0
  {
    seq(|queue|, k requires 0 <= k < |queue| => queue[k].0)
  }
}
