/**
 The device business thread as functions on its state. `events` records every published state.
 Log lines and the snapshot request are left out; the steady clock is the parameter `at`.
 */
module DeviceService {
  import opened Wrappers
  import opened DeviceTypes
  import R = DeviceRegistry
  import S = DirtyState
  import W = PostgresWorker

  datatype Pending = Pending(registration: Registration, receivedAt: Time, submitted: bool)

  datatype Event = Event(record: DeviceRecord, reason: R.Reason, degraded: bool)

  datatype Service = Service(
    registry: R.Registry,
    dirty: S.Entries,
    pending: map<DeviceId, Pending>,
    degraded: map<DeviceId, nat>,
    lastReason: map<DeviceId, R.Reason>,
    submitted: map<DeviceId, DeviceWrite>,
    unavailable: bool,
    inputDrained: bool,
    dispatchPending: bool,
    blocked: bool,
    outstanding: int,
    worker: W.Worker,
    events: seq<Event>)

  // ---------------------------------------------------------------- building blocks

  predicate IsDegraded(s: Service, device: DeviceId) {
    s.unavailable || device in s.degraded
  }

  function ReasonOf(s: Service, device: DeviceId): R.Reason {
    if device in s.lastReason then s.lastReason[device] else R.TelemetryReceived
  }

  function Publish(s: Service, record: DeviceRecord, reason: R.Reason, degraded: bool): Service {
    s.(events := s.events + [Event(record, reason, degraded)])
  }

  function WriteFor(mutation: R.Mutation): DeviceWrite {
    DeviceWrite(mutation.record, mutation.record.revision, R.Flagged(mutation, Metadata), R.Flagged(mutation, Status),
                R.Flagged(mutation, Telemetry), if mutation.reason.TelemetryReceived? then TelemetryBatch else Immediate)
  }

  function Mark(s: Service, mutation: R.Mutation, at: Time): Service {
    var record := mutation.record;
    var degraded := if IsDegraded(s, record.device) then s.degraded[record.device := record.revision] else s.degraded;
    var marked := s.(lastReason := s.lastReason[record.device := mutation.reason],
                     dirty := S.Mark(s.dirty, WriteFor(mutation), at),
                     degraded := degraded);
    Publish(marked, record, mutation.reason, IsDegraded(marked, record.device))
  }

  /** The device is degraded at `revision` or at the directory's, whichever is newer; unknown devices are ignored. */
  function Degrade(s: Service, device: DeviceId, revision: nat): Service {
    if device !in s.registry.records then s
    else
      var record := s.registry.records[device];
      Publish(s.(degraded := s.degraded[device := S.Max(record.revision, revision)]), record, ReasonOf(s, device), true)
  }

  function SubmitWrite(s: Service, write: DeviceWrite, at: Time): (Service, bool) {
    var (worker, accepted) := W.SubmitWrite(s.worker, write);
    var device := write.record.device;
    if !accepted then
      (Degrade(s.(dirty := S.Restore(s.dirty, write, at)), device, 0), false)
    else
      (s.(worker := worker,
          outstanding := if device in s.submitted then s.outstanding else s.outstanding + 1,
          submitted := s.submitted[device := write]), true)
  }

  // ---------------------------------------------------------------- messages

  function HandleRegistration(s: Service, registration: Registration, receivedAt: Time, at: Time): Service {
    var device := registration.device;
    if device !in s.registry.records then
      if s.unavailable then s
      else
        s.(pending := s.pending[device := Pending(registration, receivedAt,
                                                  device in s.pending && s.pending[device].submitted)])
    else
      match R.ApplyRegistration(s.registry, registration, receivedAt)
      case Failure(_) => s
      case Success((registry, mutation)) => Mark(s.(registry := registry), mutation, at)
  }

  function HandleReport(s: Service, device: DeviceId, report: Report, receivedAt: Time, at: Time): Service {
    match R.ApplyTelemetry(s.registry, device, report, receivedAt)
    case Failure(_) => s
    case Success((registry, mutation)) => Mark(s.(registry := registry), mutation, at)
  }

  // ---------------------------------------------------------------- database results

  function SubmittedIn(pending: map<DeviceId, Pending>): set<DeviceId> {
    set d | d in pending && pending[d].submitted
  }

  function FullWrite(record: DeviceRecord): DeviceWrite {
    DeviceWrite(record, record.revision, true, true, record.telemetry.Some?, Immediate)
  }

  /** A degraded device is written in full after the database came back. */
  function RecoverOne(s: Service, device: DeviceId, at: Time): Service {
    if device !in s.degraded || device !in s.registry.records then s
    else SubmitWrite(s, FullWrite(s.registry.records[device]), at).0
  }

  function RecoverEach(s: Service, devices: seq<DeviceId>, at: Time): Service
    decreases devices
  {
    if devices == [] then s else RecoverEach(RecoverOne(s, devices[0], at), devices[1..], at)
  }

  lemma {:induction false} RecoverEachAppend(s: Service, devices: seq<DeviceId>, device: DeviceId, at: Time)
    ensures RecoverEach(s, devices + [device], at) == RecoverOne(RecoverEach(s, devices, at), device, at)
    decreases devices
  {
    if devices != [] {
      assert (devices + [device])[1..] == devices[1..] + [device];
      RecoverEachAppend(RecoverOne(s, devices[0], at), devices[1..], device, at);
    }
  }

  lemma SubmitKeepsDegraded(s: Service, write: DeviceWrite, at: Time)
    ensures s.degraded.Keys <= SubmitWrite(s, write, at).0.degraded.Keys
  {
    hide S.Restore, W.SubmitWrite;
  }

  function HandleUnavailable(s: Service, device: DeviceId, revision: nat): Service {
    var degraded := Degrade(s.(unavailable := true), device, revision);
    degraded.(pending := map[], outstanding := s.outstanding - |SubmittedIn(s.pending)|)
  }

  function HandlePermanentFailure(s: Service, failed: Option<DeviceId>, revision: nat): Service {
    match failed
    case None =>
      s.(pending := map[], submitted := map[], outstanding := s.outstanding - |SubmittedIn(s.pending)| - |s.submitted|)
    case Some(device) =>
      var finished := (if device in SubmittedIn(s.pending) then 1 else 0) + (if device in s.submitted then 1 else 0);
      Degrade(s.(pending := s.pending - {device}, submitted := s.submitted - {device},
                 outstanding := s.outstanding - finished), device, revision)
  }

  lemma FailureSplits(s: Service, device: DeviceId, revision: nat)
    ensures var forgotten := s.outstanding - (if device in SubmittedIn(s.pending) then 1 else 0);
            HandlePermanentFailure(s, Some(device), revision) ==
            Degrade(s.(pending := s.pending - {device}, submitted := s.submitted - {device},
                       outstanding := forgotten - (if device in s.submitted then 1 else 0)), device, revision)
  {
    hide Degrade, SubmittedIn;
  }

  function HandleProvisioned(s: Service, device: DeviceId, record: DeviceRecord, at: Time): Service {
    if device !in s.pending then s
    else
      var candidate := s.pending[device];
      var outstanding := if candidate.submitted then s.outstanding - 1 else s.outstanding;
      match R.AddProvisioned(s.registry, record)
      case Failure(_) => s.(outstanding := outstanding)
      case Success(registry) =>
        var added := s.(registry := registry, pending := s.pending - {device}, outstanding := outstanding);
        match R.ApplyRegistration(registry, candidate.registration, candidate.receivedAt)
        case Failure(_) => added
        case Success((updated, mutation)) => Mark(added.(registry := updated), mutation, at)
  }

  /** The count may as well be lowered after the mark. */
  lemma MarkCounts(s: Service, device: DeviceId, record: DeviceRecord, at: Time)
    requires device in s.pending && R.AddProvisioned(s.registry, record).Success?
    ensures var candidate := s.pending[device];
            var registry := R.AddProvisioned(s.registry, record).value;
            var result := R.ApplyRegistration(registry, candidate.registration, candidate.receivedAt);
            var added := s.(registry := if result.Success? then result.value.0 else registry, pending := s.pending - {device});
            var marked := if result.Success? then Mark(added, result.value.1, at) else added;
            HandleProvisioned(s, device, record, at) ==
              marked.(outstanding := if candidate.submitted then s.outstanding - 1 else s.outstanding)
  {
    hide S.Mark, R.AddProvisioned, R.ApplyRegistration, WriteFor;
  }

  /** The submitted write of the device is done, if the revision covers it. */
  function Settle(s: Service, device: DeviceId, revision: nat): Service {
    if device in s.submitted && revision >= s.submitted[device].revision then
      s.(dirty := S.Complete(s.dirty, s.submitted[device]), submitted := s.submitted - {device},
         outstanding := s.outstanding - 1)
    else s
  }

  function HandleCompleted(s: Service, device: DeviceId, revision: nat): Service {
    var settled := Settle(s, device, revision);
    if device in s.degraded && revision >= s.degraded[device] then
      var recovered := settled.(degraded := s.degraded - {device});
      if device in s.registry.records then Publish(recovered, s.registry.records[device], R.Recovery, false)
      else recovered
    else settled
  }

  /** `devices` is the order in which the degraded devices are visited after a recovery. */
  function HandleResult(s: Service, result: DatabaseResult, devices: seq<DeviceId>, at: Time): Service {
    match result
    case DatabaseUnavailable(device, revision) => HandleUnavailable(s, device, revision)
    case PermanentFailure(failed, revision) => HandlePermanentFailure(s, failed, revision)
    case DatabaseRecovered => RecoverEach(s.(unavailable := false), devices, at)
    case Provisioned(device, record) => HandleProvisioned(s, device, record, at)
    case WriteCompleted(device, revision) => HandleCompleted(s, device, revision)
  }

  // ---------------------------------------------------------------- periodic work

  function SubmitPending(s: Service, device: DeviceId): Service {
    if s.unavailable || device !in s.pending || s.pending[device].submitted then s
    else
      var candidate := s.pending[device];
      var (worker, accepted) := W.SubmitProvision(s.worker, candidate.registration, candidate.receivedAt);
      s.(worker := worker,
         pending := s.pending[device := candidate.(submitted := accepted)],
         outstanding := if accepted then s.outstanding + 1 else s.outstanding)
  }

  function SubmitEach(s: Service, devices: seq<DeviceId>): Service
    decreases devices
  {
    if devices == [] then s else SubmitEach(SubmitPending(s, devices[0]), devices[1..])
  }

  function Cancel(s: Service): Service {
    s.(pending := map d | d in s.pending :: s.pending[d].(submitted := false),
       submitted := map[], dirty := map[], blocked := false, dispatchPending := false, outstanding := 0)
  }

  function MarkEach(s: Service, mutations: seq<R.Mutation>, at: Time): Service
    decreases mutations
  {
    if mutations == [] then s else MarkEach(Mark(s, mutations[0], at), mutations[1..], at)
  }

  /** One inactive device goes offline. */
  function ExpireOne(s: Service, device: DeviceId, now: Time, timeout: nat, at: Time): Service {
    if device !in s.registry.records || !R.IsInactive(s.registry.records[device], now, timeout) then s
    else
      var record := s.registry.records[device];
      Mark(s.(registry := s.registry.(records := s.registry.records[device := R.Expired(record)])), R.ExpiryOf(record), at)
  }

  function ExpireEach(s: Service, devices: seq<DeviceId>, now: Time, timeout: nat, at: Time): Service
    decreases devices
  {
    if devices == [] then s
    else ExpireEach(ExpireOne(s, devices[0], now, timeout, at), devices[1..], now, timeout, at)
  }

  // ---------------------------------------------------------------- dispatch

  function Send(s: Service, writes: seq<DeviceWrite>, at: Time): (Service, bool)
    decreases writes
  {
    if writes == [] then (s, true)
    else
      var (first, accepted) := SubmitWrite(s, writes[0], at);
      var (rest, all) := Send(first, writes[1..], at);
      (rest, accepted && all)
  }

  /** All selected entries are taken at once, then submitted one by one. */
  ghost function TakeAndSend(s: Service, selection: S.Selection, devices: seq<DeviceId>, at: Time): (Service, bool)
    requires S.Visits(s.dirty, selection, devices)
  {
    Send(s.(dirty := S.TakeMatching(s.dirty, selection)), S.WritesOf(s.dirty, devices), at)
  }

  /** One dirty entry is taken and its write submitted. */
  function DispatchOne(s: Service, device: DeviceId, at: Time): (Service, bool)
    requires device in s.dirty
  {
    SubmitWrite(s.(dirty := S.TakeOne(s.dirty, device)), S.WriteOf(s.dirty[device]), at)
  }

  // ---------------------------------------------------------------- one round of the business thread

  datatype Inbound =
    | RegistrationMessage(registration: Registration, registeredAt: Time)
    | ReportMessage(device: DeviceId, report: Report, reportedAt: Time)

  function HandleMessage(s: Service, message: Inbound, at: Time): Service {
    match message
    case RegistrationMessage(registration, receivedAt) => HandleRegistration(s, registration, receivedAt, at)
    case ReportMessage(device, report, receivedAt) => HandleReport(s, device, report, receivedAt, at)
  }

  function HandleMessages(s: Service, messages: seq<Inbound>, at: Time): Service
    decreases messages
  {
    if messages == [] then s else HandleMessages(HandleMessage(s, messages[0], at), messages[1..], at)
  }

  /** `orders` holds the order in which each result visited the degraded devices. */
  function HandleResults(s: Service, results: seq<DatabaseResult>, orders: seq<seq<DeviceId>>, at: Time): Service
    requires |orders| == |results|
    decreases results
  {
    if results == [] then s
    else HandleResults(HandleResult(s, results[0], orders[0], at), results[1..], orders[1..], at)
  }

  lemma {:induction false} HandleResultsAppend(s: Service, results: seq<DatabaseResult>, orders: seq<seq<DeviceId>>,
                                               result: DatabaseResult, order: seq<DeviceId>, at: Time)
    requires |orders| == |results|
    ensures HandleResults(s, results + [result], orders + [order], at) ==
            HandleResult(HandleResults(s, results, orders, at), result, order, at)
    decreases results
  {
    if results != [] {
      assert (results + [result])[1..] == results[1..] + [result];
      assert (orders + [order])[1..] == orders[1..] + [order];
      HandleResultsAppend(HandleResult(s, results[0], orders[0], at), results[1..], orders[1..], result, order, at);
    }
  }

  lemma {:induction false} HandleMessagesAppend(s: Service, messages: seq<Inbound>, message: Inbound, at: Time)
    ensures HandleMessages(s, messages + [message], at) == HandleMessage(HandleMessages(s, messages, at), message, at)
    decreases messages
  {
    if messages != [] {
      assert (messages + [message])[1..] == messages[1..] + [message];
      HandleMessagesAppend(HandleMessage(s, messages[0], at), messages[1..], message, at);
    }
  }

  lemma {:induction false} SubmitEachAppend(s: Service, devices: seq<DeviceId>, device: DeviceId)
    ensures SubmitEach(s, devices + [device]) == SubmitPending(SubmitEach(s, devices), device)
    decreases devices
  {
    if devices != [] {
      assert (devices + [device])[1..] == devices[1..] + [device];
      SubmitEachAppend(SubmitPending(s, devices[0]), devices[1..], device);
    }
  }

  lemma {:induction false} MarkEachAppend(s: Service, mutations: seq<R.Mutation>, mutation: R.Mutation, at: Time)
    ensures MarkEach(s, mutations + [mutation], at) == Mark(MarkEach(s, mutations, at), mutation, at)
    decreases mutations
  {
    if mutations != [] {
      assert (mutations + [mutation])[1..] == mutations[1..] + [mutation];
      MarkEachAppend(Mark(s, mutations[0], at), mutations[1..], mutation, at);
    }
  }

  lemma {:induction false} SendAppend(s: Service, writes: seq<DeviceWrite>, write: DeviceWrite, at: Time)
    ensures var (sent, all) := Send(s, writes, at);
            var (last, accepted) := SubmitWrite(sent, write, at);
            Send(s, writes + [write], at) == (last, all && accepted)
    decreases writes
  {
    if writes != [] {
      assert (writes + [write])[1..] == writes[1..] + [write];
      hide SubmitWrite;
      SendAppend(SubmitWrite(s, writes[0], at).0, writes[1..], write, at);
    }
  }

  function ReadyInput(s: Service, results: seq<DatabaseResult>, orders: seq<seq<DeviceId>>, cancel: bool,
                      messages: seq<Inbound>, at: Time): Service
    requires |orders| == |results|
  {
    var handled := HandleResults(s, results, orders, at);
    HandleMessages(if cancel then Cancel(handled) else handled, messages, at)
  }

  function ReadyTimers(s: Service, submits: seq<DeviceId>, due: bool, expired: seq<DeviceId>, now: Time, timeout: nat,
                       at: Time): Service {
    var submitted := if s.unavailable then s else SubmitEach(s, submits);
    if due then ExpireEach(submitted, expired, now, timeout, at) else submitted
  }

  /** What is dispatched: everything once the input is drained, otherwise immediate writes and due telemetry. */
  ghost predicate Dispatches(s: Service, after: Service, interval: nat, first: seq<DeviceId>, second: seq<DeviceId>, at: Time) {
    if s.unavailable || (s.inputDrained && s.blocked) then after == s
    else if s.inputDrained then
      S.Visits(s.dirty, S.AllDirty, first) &&
      var (sent, all) := TakeAndSend(s, S.AllDirty, first, at);
      after == if all then sent.(dispatchPending := false) else sent.(blocked := true)
    else
      S.Visits(s.dirty, S.AllImmediate, first) &&
      var urgent := TakeAndSend(s, S.AllImmediate, first, at).0;
      S.Visits(urgent.dirty, S.TelemetryDue(at, interval), second) &&
      after == TakeAndSend(urgent, S.TelemetryDue(at, interval), second, at).0
  }
}
