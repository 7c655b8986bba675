/**
 The write-behind pipeline as a whole: directory, cache, worker, table and result queue, for any
 number of devices. One step is one critical section of one thread; work the business thread does for
 several devices in a row is one step per device, so the database thread may run in between.
 */
module DevicePipeline {
  import opened Wrappers
  import opened Collections
  import opened DeviceTypes
  import opened DeviceSlices
  import R = DeviceRegistry
  import S = DirtyState
  import W = PostgresWorker
  import V = DeviceService

  /** What the database thread took out of its queues and is running against the store. */
  datatype Job = Idle | Building(provision: W.Provision) | Writing(write: DeviceWrite)

  /** `startup` are the writes of the start-up expiry not yet queued, `stored` the writes that reached the table. */
  datatype World = World(
    service: V.Service,
    startup: map<DeviceId, DeviceWrite>,
    job: Job,
    rows: map<DeviceId, Row>,
    results: seq<DatabaseResult>,
    flagged: map<DeviceId, Marks>,
    lost: set<DeviceId>,
    refusals: nat,
    stored: seq<(DeviceId, nat)>)

  const UNFLAGGED := Marks(0, 0, 0)

  function FlaggedAt(w: World, device: DeviceId): Marks {
    if device in w.flagged then w.flagged[device] else UNFLAGGED
  }

  function SliceOf(w: World, device: DeviceId): Slice {
    Slice(Lookup(w.service.registry.records, device),
          Lookup(w.service.dirty, device),
          Lookup(w.startup, device),
          Lookup(w.service.worker.writes, device),
          if w.job.Writing? && w.job.write.record.device == device then Some(w.job.write) else None,
          Lookup(w.rows, device),
          FlaggedAt(w, device),
          Lookup(w.service.degraded, device),
          device in w.lost,
          w.service.worker.accepting)
  }

  // ---------------------------------------------------------------- steps

  datatype Step =
    // the business thread
    | Register(registration: Registration, receivedAt: Time, at: Time)
    | Tell(device: DeviceId, payload: string, deviceType: Option<DeviceType>, receivedAt: Time, at: Time)
    | Expire(device: DeviceId, now: Time, timeout: nat, at: Time)
    | Provide(device: DeviceId)
    | Dispatch(device: DeviceId, at: Time)
    | Recover(device: DeviceId, at: Time)
    | HandleNext(at: Time)
    | CancelWork
    | SetDrain(inputDrained: bool, dispatchPending: bool, blocked: bool)
    // the thread that starts the runtime
    | QueueStartup(device: DeviceId)
    // the database thread
    | TakeWrite(device: DeviceId)
    | FinishWrite(written: W.Answer<()>, committed: bool)
    | TakeProvision(device: DeviceId)
    | FinishProvision(built: W.Answer<()>, committed: bool, schoolId: int)
    | Reconnect(connected: W.Answer<()>)
    | CommandOutage
    | CommandWork(commands: seq<(nat, W.Task)>, operations: set<nat>)
    | CloseWorker

  ghost predicate Enabled(w: World, step: Step) {
    match step
    case Dispatch(device, _) =>
      !w.service.unavailable && device in w.service.dirty && S.HasDirty(w.service.dirty[device])
    case Recover(device, _) => !w.service.unavailable && device in w.service.degraded
    case HandleNext(_) => |w.results| > 0
    // the MQTT client is only started after every start-up write was queued
    case Register(_, _, _) => w.startup == map[]
    case Tell(_, _, _, _, _) => w.startup == map[]
    case QueueStartup(device) => device in w.startup
    case TakeWrite(device) => w.job.Idle? && !w.service.worker.unavailable && device in w.service.worker.writes
    case FinishWrite(written, committed) => w.job.Writing? && (written.Done? ==> committed)
    case TakeProvision(device) => w.job.Idle? && !w.service.worker.unavailable && device in w.service.worker.provisions
    case FinishProvision(built, committed, _) => w.job.Building? && (built.Done? ==> committed)
    case Reconnect(_) => w.job.Idle? && w.service.worker.unavailable
    case CommandOutage => w.job.Idle?
    case _ => true
  }

  function After(w: World, service: V.Service, mutation: Option<R.Mutation>): World {
    if mutation.None? then w.(service := service)
    else
      var device := mutation.value.record.device;
      w.(service := service, flagged := w.flagged[device := FlaggedBy(FlaggedAt(w, device), mutation.value)])
  }

  function Applied(result: Result<(R.Registry, R.Mutation), R.Refusal>): Option<R.Mutation> {
    if result.Success? then Some(result.value.1) else None
  }

  /** The row a registration creates in the database, unless the device has one. */
  function Provisioned(rows: map<DeviceId, Row>, provision: W.Provision, schoolId: int): map<DeviceId, Row> {
    var registration := provision.registration;
    if registration.device in rows then rows
    else
      rows[registration.device :=
        Row(DeviceRecord(
              registration.device,
              if registration.schoolName.Some? then schoolId else 0,
              if registration.schoolName.Some? then registration.schoolName.value else "",
              registration.dcdwLabel,
              if registration.deviceType.FlightController? then "PX4" else "CNS v1.0",
              if registration.online then Online else Offline,
              if registration.online then Some(provision.at) else None,
              None, None, 0, registration.deviceType, registration.capabilities, registration.product,
              registration.version),
            UNFLAGGED, 0)]
  }

  function ProvisionAnswer(rows: map<DeviceId, Row>, device: DeviceId, built: W.Answer<()>): W.Answer<DeviceRecord>
    requires device in rows
  {
    match built
    case Done(_) => W.Done(rows[device].record)
    case Refused(kind) => W.Refused(kind)
  }

  function HandledNext(w: World, at: Time): World
    requires |w.results| > 0
  {
    var result := w.results[0];
    var taken := w.(results := w.results[1..]);
    var service := V.HandleResult(w.service, result, [], at);
    if !result.Provisioned? || result.device !in w.service.pending then taken.(service := service)
    else
      var candidate := w.service.pending[result.device];
      match R.AddProvisioned(w.service.registry, result.record)
      case Failure(_) => taken.(service := service, refusals := if candidate.submitted then w.refusals + 1 else w.refusals)
      case Success(registry) =>
        After(taken, service, Applied(R.ApplyRegistration(registry, candidate.registration, candidate.receivedAt)))
  }

  function QueuedStartup(w: World, device: DeviceId): World
    requires device in w.startup
  {
    var (worker, accepted) := W.SubmitWrite(w.service.worker, w.startup[device]);
    w.(startup := w.startup - {device}, service := w.service.(worker := worker),
       lost := if accepted then w.lost else w.lost + {device})
  }

  function FinishedWrite(w: World, written: W.Answer<()>, committed: bool): World
    requires w.job.Writing?
  {
    var write := w.job.write;
    var device := write.record.device;
    var (worker, result) := W.FinishWrite(w.service.worker, write, written);
    w.(job := Idle,
       service := w.service.(worker := worker),
       results := w.results + [result],
       rows := if committed && device in w.rows then w.rows[device := Stored(w.rows[device], write)] else w.rows,
       stored := if committed then w.stored + [(device, write.revision)] else w.stored,
       lost := if written == W.Refused(W.Permanent) then w.lost + {device} else w.lost)
  }

  function FinishedProvision(w: World, built: W.Answer<()>, committed: bool, schoolId: int): World
    requires w.job.Building?
  {
    var provision := w.job.provision;
    var device := provision.registration.device;
    var created := Provisioned(w.rows, provision, schoolId);
    var (worker, result) := W.FinishProvision(w.service.worker, device, ProvisionAnswer(created, device, built));
    w.(job := Idle,
       service := w.service.(worker := worker),
       results := w.results + [result],
       rows := if committed then created else w.rows)
  }

  function Reconnected(w: World, connected: W.Answer<()>): World
    requires w.service.worker.unavailable
  {
    var (worker, result) := W.Reconnect(w.service.worker, connected);
    w.(service := w.service.(worker := worker),
       results := if result.Some? then w.results + [result.value] else w.results,
       lost := if connected == W.Refused(W.Permanent) then w.lost + w.service.worker.writes.Keys else w.lost)
  }

  ghost function Next(w: World, step: Step): World
    requires Enabled(w, step)
  {
    var s := w.service;
    match step
    case Register(registration, receivedAt, at) =>
      After(w, V.HandleRegistration(s, registration, receivedAt, at),
            Applied(R.ApplyRegistration(s.registry, registration, receivedAt)))
    case Tell(device, payload, deviceType, receivedAt, at) =>
      var report := Report(payload, None, deviceType);
      After(w, V.HandleReport(s, device, report, receivedAt, at),
            Applied(R.ApplyTelemetry(s.registry, device, report, receivedAt)))
    case Expire(device, now, timeout, at) =>
      After(w, V.ExpireOne(s, device, now, timeout, at),
            if device in s.registry.records && R.IsInactive(s.registry.records[device], now, timeout)
            then Some(R.ExpiryOf(s.registry.records[device])) else None)
    case Provide(device) => w.(service := V.SubmitPending(s, device))
    case Dispatch(device, at) => w.(service := V.DispatchOne(s, device, at).0)
    case Recover(device, at) => w.(service := V.RecoverOne(s, device, at))
    case HandleNext(at) => HandledNext(w, at)
    case CancelWork => w.(service := V.Cancel(s), lost := w.lost + s.dirty.Keys, refusals := 0)
    case SetDrain(inputDrained, dispatchPending, blocked) =>
      w.(service := s.(inputDrained := inputDrained, dispatchPending := dispatchPending, blocked := blocked))
    case QueueStartup(device) => QueuedStartup(w, device)
    case TakeWrite(device) =>
      w.(service := s.(worker := W.TakeWrite(s.worker, device).0), job := Writing(s.worker.writes[device]))
    case FinishWrite(written, committed) => FinishedWrite(w, written, committed)
    case TakeProvision(device) =>
      w.(service := s.(worker := W.TakeProvision(s.worker, device)), job := Building(s.worker.provisions[device]))
    case FinishProvision(built, committed, schoolId) => FinishedProvision(w, built, committed, schoolId)
    case Reconnect(connected) => Reconnected(w, connected)
    case CommandOutage => w.(service := s.(worker := W.Outage(s.worker)))
    case CommandWork(commands, operations) =>
      w.(service := s.(worker := s.worker.(commands := commands, operations := operations)))
    case CloseWorker => w.(service := s.(worker := s.worker.(accepting := false)))
  }

  // ---------------------------------------------------------------- invariant

  ghost predicate SlicesOk(w: World) {
    forall d: DeviceId :: SliceOk(SliceOf(w, d))
  }

  /** No device goes back. */
  ghost predicate Moves(w: World, after: World) {
    forall d: DeviceId :: Advances(SliceOf(w, d), SliceOf(after, d))
  }

  ghost predicate ResultOk(w: World, result: DatabaseResult) {
    match result
    case Provisioned(device, record) =>
      record.device == device && record.revision == 0 && device in w.rows &&
      (device !in w.service.registry.records ==> w.rows[device].record == record)
    case WriteCompleted(device, revision) => CompletionOk(SliceOf(w, device), revision) && (device, revision) in w.stored
    case _ => true
  }

  ghost predicate ResultsOk(w: World) {
    forall k :: 0 <= k < |w.results| ==> ResultOk(w, w.results[k])
  }

  ghost predicate KeysOk(w: World) {
    && (forall d :: d in w.service.pending ==>
          d !in w.service.registry.records && w.service.pending[d].registration.device == d)
    && (forall d :: d in w.service.submitted ==> w.service.submitted[d].record.device == d)
    && (forall d :: d in w.rows ==> w.rows[d].record.device == d && w.rows[d].record.revision == 0)
  }

  /** The counter is exact up to the refusals that left their entry behind. */
  ghost predicate Accounted(w: World) {
    w.service.outstanding == |w.service.submitted| + |V.SubmittedIn(w.service.pending)| - w.refusals
  }

  /** Writes of one device reached the table in revision order. */
  ghost predicate StoredInOrder(w: World) {
    && (forall k :: 0 <= k < |w.stored| ==> w.stored[k].0 in w.rows && w.stored[k].1 <= w.rows[w.stored[k].0].newest)
    && (forall k, l :: 0 <= k < l < |w.stored| && w.stored[k].0 == w.stored[l].0 ==> w.stored[k].1 <= w.stored[l].1)
  }

  ghost predicate Inv(w: World) {
    R.Coherent(w.service.registry) && SlicesOk(w) && ResultsOk(w) && KeysOk(w) && Accounted(w) && StoredInOrder(w)
  }
}
