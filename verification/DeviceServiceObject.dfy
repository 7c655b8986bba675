/**
 The device business thread as an object that owns the cache and changes the directory and the
 worker's queue in place. Iteration orders of hash maps are returned as ghost results.
 */
module DeviceServiceObject {
  import opened Wrappers
  import opened Collections
  import opened DeviceTypes
  import R = DeviceRegistry
  import S = DirtyState
  import W = PostgresWorker
  import V = DeviceService
  import O = DeviceOutcomes
  import opened DeviceRegistryObject
  import opened DirtyStateObject
  import opened PostgresWorkerObject
  import opened DeviceBatches

  class DeviceService {
    const registry: DeviceRegistry
    const worker: PostgresWorker
    const dirty: DirtyState
    var pending: map<DeviceId, V.Pending>
    var degraded: map<DeviceId, nat>
    var lastReason: map<DeviceId, R.Reason>
    var submitted: map<DeviceId, DeviceWrite>
    var unavailable: bool
    var inputDrained: bool
    var dispatchPending: bool
    var blocked: bool
    var outstanding: int
    var events: seq<V.Event>
    var results: seq<DatabaseResult>
    var messages: seq<V.Inbound>
    var cancelRequested: bool
    var nextScan: Time

    function State(): V.Service
      reads this, registry, worker, dirty
    {
      V.Service(registry.State(), dirty.entries, pending, degraded, lastReason, submitted, unavailable, inputDrained,
                dispatchPending, blocked, outstanding, worker.State(), events)
    }

    ghost predicate Valid()
      reads this, registry, worker
    {
      registry.Valid() && worker.Valid()
    }

    constructor (registry: DeviceRegistry, worker: PostgresWorker, now: Time)
      requires registry.Valid() && worker.Valid()
      ensures Valid() && this.registry == registry && this.worker == worker && fresh(dirty)
      ensures State() == V.Service(registry.State(), map[], map[], map[], map[], map[], false, false, false, false, 0,
                                   worker.State(), [])
    {
      this.registry, this.worker := registry, worker;
      dirty := new DirtyState();
      pending, degraded, lastReason, submitted := map[], map[], map[], map[];
      unavailable, inputDrained, dispatchPending, blocked := false, false, false, false;
      outstanding, events := 0, [];
      results, messages, cancelRequested, nextScan := [], [], false, now + 1;
    }

    predicate IsDeviceDegraded(device: DeviceId)
      reads this
    {
      unavailable || device in degraded
    }

    method Publish(record: DeviceRecord, reason: R.Reason, degraded: bool)
      modifies this`events
      ensures events == old(events) + [V.Event(record, reason, degraded)]
    {
      events := events + [V.Event(record, reason, degraded)];
    }

    method Mark(mutation: R.Mutation, at: Time)
      requires Valid()
      modifies this`lastReason, this`degraded, this`events, dirty
      ensures Valid() && State() == V.Mark(old(State()), mutation, at)
    {
      var record := mutation.record;
      lastReason := lastReason[record.device := mutation.reason];
      dirty.Mark(V.WriteFor(mutation), at);
      if unavailable || record.device in degraded {
        degraded := degraded[record.device := record.revision];
      }
      Publish(record, mutation.reason, IsDeviceDegraded(record.device));
    }

    /** A known device becomes degraded, and that is announced with its last reason. */
    method Degrade(device: DeviceId, revision: nat)
      requires Valid()
      modifies this`degraded, this`events
      ensures Valid() && State() == V.Degrade(old(State()), device, revision)
    {
      var found := registry.Find(device);
      if found.Some? {
        var record := found.value;
        degraded := degraded[device := S.Max(record.revision, revision)];
        Publish(record, if device in lastReason then lastReason[device] else R.TelemetryReceived, true);
      }
    }

    method SubmitWrite(write: DeviceWrite, at: Time) returns (ok: bool)
      requires Valid()
      modifies this`degraded, this`events, this`submitted, this`outstanding, dirty, worker`writes
      ensures Valid() && (State(), ok) == V.SubmitWrite(old(State()), write, at)
    {
      hide LaneOk;
      ok := worker.SubmitWrite(write);
      if !ok {
        dirty.Restore(write, at);
        Degrade(write.record.device, 0);
        return;
      }
      if write.record.device !in submitted {
        outstanding := outstanding + 1;
      }
      submitted := submitted[write.record.device := write];
    }

    // -------------------------------------------------------------- messages

    method HandleRegistration(registration: Registration, receivedAt: Time, at: Time)
      requires Valid()
      modifies this`pending, this`degraded, this`lastReason, this`submitted, this`unavailable, this`outstanding, this`events,
               registry, dirty
      ensures Valid() && State() == V.HandleRegistration(old(State()), registration, receivedAt, at)
    {
      hide V.Mark, R.Coherent, R.ApplyRegistration;
      var device := registration.device;
      if registry.Find(device).None? {
        if !unavailable {
          if device !in pending {
            pending := pending[device := V.Pending(registration, receivedAt, false)];
          } else {
            pending := pending[device := pending[device].(registration := registration, receivedAt := receivedAt)];
          }
        }
        return;
      }
      var result := registry.ApplyRegistration(registration, receivedAt);
      if result.Success? {
        Mark(result.value, at);
      }
    }

    method HandleReport(device: DeviceId, report: Report, receivedAt: Time, at: Time)
      requires Valid()
      modifies this`pending, this`degraded, this`lastReason, this`submitted, this`unavailable, this`outstanding, this`events,
               registry, dirty
      ensures Valid() && State() == V.HandleReport(old(State()), device, report, receivedAt, at)
    {
      hide V.Mark, R.Coherent, R.ApplyTelemetry;
      var result := registry.ApplyTelemetry(device, report, receivedAt);
      if result.Success? {
        Mark(result.value, at);
      }
    }

    // -------------------------------------------------------------- database results

    /** How many registrations are waiting for the database; the map is walked to count them. */
    method CountSubmitted() returns (count: nat)
      ensures count == |V.SubmittedIn(pending)|
    {
      count := 0;
      var todo := pending.Keys;
      ghost var seen: set<DeviceId> := {};
      while todo != {}
        invariant todo <= pending.Keys
        invariant seen == set d | d in pending && d !in todo && pending[d].submitted
        invariant count == |seen|
        decreases todo
      {
        var device :| device in todo;
        todo := todo - {device};
        if pending[device].submitted {
          count := count + 1;
          seen := seen + {device};
        }
      }
      assert seen == V.SubmittedIn(pending);
    }

    method HandleUnavailable(device: DeviceId, revision: nat)
      requires Valid()
      modifies this`pending, this`degraded, this`lastReason, this`submitted, this`unavailable, this`outstanding, this`events
      ensures Valid() && State() == V.HandleUnavailable(old(State()), device, revision)
    {
      hide R.Coherent, LaneOk, V.SubmittedIn;
      unavailable := true;
      Degrade(device, revision);
      var completed := CountSubmitted();
      pending := map[];
      if completed != 0 {
        outstanding := outstanding - completed;
      }
    }

    method ForgetPending(device: DeviceId)
      modifies this`pending, this`outstanding
      ensures pending == old(pending) - {device}
      ensures outstanding == old(outstanding) - (if device in V.SubmittedIn(old(pending)) then 1 else 0)
    {
      if device in pending {
        if pending[device].submitted {
          outstanding := outstanding - 1;
        }
        pending := pending - {device};
      }
      assert pending == old(pending) - {device};
    }

    method ForgetSubmitted(device: DeviceId)
      modifies this`submitted, this`outstanding
      ensures submitted == old(submitted) - {device}
      ensures outstanding == old(outstanding) - (if device in old(submitted) then 1 else 0)
    {
      if device in submitted {
        outstanding := outstanding - 1;
        submitted := submitted - {device};
      }
      assert submitted == old(submitted) - {device};
    }

    /** The store failed for one device. */
    method FailDevice(device: DeviceId, revision: nat)
      requires Valid()
      modifies this`pending, this`degraded, this`lastReason, this`submitted, this`unavailable, this`outstanding, this`events
      ensures Valid() && State() == V.HandlePermanentFailure(old(State()), Some(device), revision)
    {
      V.FailureSplits(State(), device, revision);
      hide R.Coherent, LaneOk, V.Degrade, V.SubmittedIn, V.HandlePermanentFailure;
      ForgetPending(device);
      ForgetSubmitted(device);
      Degrade(device, revision);
    }

    method HandlePermanentFailure(failed: Option<DeviceId>, revision: nat)
      requires Valid()
      modifies this`pending, this`degraded, this`lastReason, this`submitted, this`unavailable, this`outstanding, this`events
      ensures Valid() && State() == V.HandlePermanentFailure(old(State()), failed, revision)
    {
      hide R.Coherent, LaneOk, V.Degrade, V.SubmittedIn;
      if failed.Some? {
        FailDevice(failed.value, revision);
        return;
      }
      var completed := CountSubmitted();
      pending := map[];
      completed := completed + |submitted|;
      submitted := map[];
      if completed != 0 {
        outstanding := outstanding - completed;
      }
    }

    /** After a recovery every degraded device is written in full. */
    method HandleRecovered(at: Time) returns (ghost order: seq<DeviceId>)
      requires Valid()
      modifies this`pending, this`degraded, this`lastReason, this`submitted, this`unavailable, this`outstanding, this`events,
               dirty, worker`writes
      ensures Valid() && State() == V.RecoverEach(old(State()).(unavailable := false), order, at)
      ensures NoDuplicates(order) && forall d :: d in order <==> d in old(degraded)
      ensures !unavailable
      ensures forall d :: d in old(degraded) && d in registry.records ==>
                if worker.accepting then O.IsRewritten(State(), d) else O.IsKeptDirty(State(), d)
    {
      R.KeyedByDevice(registry.State());
      hide R.Coherent, LaneOk, V.SubmitWrite, O.IsRewritten, O.IsKeptDirty;
      unavailable := false;
      order := [];
      ghost var start := State();
      var todo := degraded.Keys;
      while todo != {}
        invariant Valid() && todo <= old(degraded).Keys <= degraded.Keys
        invariant State() == V.RecoverEach(start, order, at)
        invariant NoDuplicates(order) && forall d :: d in order <==> d in old(degraded) && d !in todo
        decreases todo
      {
        var device :| device in todo;
        todo := todo - {device};
        V.RecoverEachAppend(start, order, device, at);
        order := order + [device];
        ghost var before := State();
        var record := registry.Find(device);
        if record.Some? {
          V.SubmitKeepsDegraded(before, V.FullWrite(record.value), at);
          var write := DeviceWrite(record.value, record.value.revision, true, true, record.value.telemetry.Some?, Immediate);
          var _ := SubmitWrite(write, at);
        }
        assert State() == V.RecoverOne(before, device, at);
      }
      O.RecoverEachOutcome(start, order, at);
    }

    method HandleProvisioned(device: DeviceId, record: DeviceRecord, at: Time)
      requires Valid()
      modifies this`pending, this`degraded, this`lastReason, this`submitted, this`unavailable, this`outstanding, this`events,
               registry, dirty
      ensures Valid() && State() == V.HandleProvisioned(old(State()), device, record, at)
    {
      hide R.Coherent, LaneOk, V.Mark, R.AddProvisioned, R.ApplyRegistration;
      if device !in pending {
        return;
      }
      var candidate := pending[device];
      var added := registry.AddProvisioned(record);
      if added.Failure? {
        if candidate.submitted {
          outstanding := outstanding - 1;
        }
        return;
      }
      V.MarkCounts(old(State()), device, record, at);
      hide V.HandleProvisioned;
      pending := pending - {device};
      var result := registry.ApplyRegistration(candidate.registration, candidate.receivedAt);
      if result.Success? {
        Mark(result.value, at);
      }
      if candidate.submitted {
        outstanding := outstanding - 1;
      }
    }

    method Settle(device: DeviceId, revision: nat)
      requires Valid()
      modifies this`submitted, this`outstanding, dirty
      ensures Valid() && State() == V.Settle(old(State()), device, revision)
    {
      hide R.Coherent, LaneOk, S.Complete;
      if device in submitted && revision >= submitted[device].revision {
        dirty.Complete(submitted[device]);
        submitted := submitted - {device};
        outstanding := outstanding - 1;
      }
    }

    method HandleCompleted(device: DeviceId, revision: nat)
      requires Valid()
      modifies this`pending, this`degraded, this`lastReason, this`submitted, this`unavailable, this`outstanding, this`events,
               dirty
      ensures Valid() && State() == V.HandleCompleted(old(State()), device, revision)
    {
      hide R.Coherent, LaneOk, S.Complete;
      Settle(device, revision);
      hide V.Settle;
      if device in degraded && revision >= degraded[device] {
        degraded := degraded - {device};
        var record := registry.Find(device);
        if record.Some? {
          Publish(record.value, R.Recovery, false);
        }
      }
    }

    method HandleResult(result: DatabaseResult, at: Time) returns (ghost order: seq<DeviceId>)
      requires Valid()
      modifies this`pending, this`degraded, this`lastReason, this`submitted, this`unavailable, this`outstanding, this`events,
               registry, dirty, worker`writes
      ensures Valid() && State() == V.HandleResult(old(State()), result, order, at)
    {
      hide R.Coherent, LaneOk, V.HandleCompleted, V.HandleProvisioned, V.HandlePermanentFailure, V.HandleUnavailable;
      order := [];
      match result {
        case DatabaseUnavailable(device, revision) => HandleUnavailable(device, revision);
        case PermanentFailure(failed, revision) => HandlePermanentFailure(failed, revision);
        case DatabaseRecovered => order := HandleRecovered(at);
        case Provisioned(device, record) => HandleProvisioned(device, record, at);
        case WriteCompleted(device, revision) => HandleCompleted(device, revision);
      }
    }

    // -------------------------------------------------------------- one round

    method DrainResults(at: Time) returns (ghost orders: seq<seq<DeviceId>>)
      requires Valid()
      modifies this, registry, dirty, worker`writes
      ensures Valid() && results == [] && |orders| == |old(results)|
      ensures State() == V.HandleResults(old(State()), old(results), orders, at)
      ensures messages == old(messages) && cancelRequested == old(cancelRequested) && nextScan == old(nextScan)
    {
      hide R.Coherent, LaneOk, V.HandleResult;
      orders := [];
      ghost var start, all := State(), results;
      ghost var k := 0;
      while results != []
        invariant Valid() && 0 <= k <= |all| && results == all[k..] && |orders| == k
        invariant State() == V.HandleResults(start, all[..k], orders, at)
        invariant messages == old(messages) && cancelRequested == old(cancelRequested) && nextScan == old(nextScan)
        decreases |results|
      {
        var result := results[0];
        results := results[1..];
        ghost var order := HandleResult(result, at);
        V.HandleResultsAppend(start, all[..k], orders, result, order, at);
        assert all[..k + 1] == all[..k] + [result];
        orders := orders + [order];
        k := k + 1;
      }
      assert all[..k] == all;
    }

    method DrainMessages(at: Time)
      requires Valid()
      modifies this, registry, dirty
      ensures Valid() && messages == [] && State() == V.HandleMessages(old(State()), old(messages), at)
      ensures results == old(results) && cancelRequested == old(cancelRequested) && nextScan == old(nextScan)
    {
      hide R.Coherent, LaneOk, V.HandleRegistration, V.HandleReport;
      ghost var start, all, k := State(), messages, 0;
      while messages != []
        invariant Valid() && 0 <= k <= |all| && messages == all[k..]
        invariant State() == V.HandleMessages(start, all[..k], at)
        invariant results == old(results) && cancelRequested == old(cancelRequested) && nextScan == old(nextScan)
        decreases |messages|
      {
        var message := messages[0];
        messages := messages[1..];
        V.HandleMessagesAppend(start, all[..k], message, at);
        assert all[..k + 1] == all[..k] + [message];
        match message {
          case RegistrationMessage(registration, receivedAt) => HandleRegistration(registration, receivedAt, at);
          case ReportMessage(device, report, receivedAt) => HandleReport(device, report, receivedAt, at);
        }
        k := k + 1;
      }
      assert all[..k] == all;
    }

    method CancelWork()
      requires Valid()
      modifies this`pending, this`submitted, this`blocked, this`dispatchPending, this`outstanding, dirty
      ensures Valid() && State() == V.Cancel(old(State()))
    {
      pending := map d | d in pending :: pending[d].(submitted := false);
      submitted := map[];
      dirty.Clear();
      blocked, dispatchPending, outstanding := false, false, 0;
    }

    /** Registrations not yet submitted are offered to the worker. */
    method SubmitRegistrations() returns (ghost order: seq<DeviceId>)
      requires Valid()
      modifies this`pending, this`outstanding, worker`provisions
      ensures Valid() && State() == V.SubmitEach(old(State()), order)
      ensures NoDuplicates(order) && forall d :: d in order <==> d in old(pending)
    {
      hide R.Coherent, LaneOk;
      order := [];
      ghost var start := State();
      var todo := pending.Keys;
      while todo != {}
        invariant Valid() && todo <= pending.Keys == old(pending).Keys
        invariant State() == V.SubmitEach(start, order)
        invariant NoDuplicates(order) && forall d :: d in order <==> d in old(pending) && d !in todo
        decreases todo
      {
        var device :| device in todo;
        todo := todo - {device};
        V.SubmitEachAppend(start, order, device);
        order := order + [device];
        SubmitRegistration(device);
      }
    }

    method SubmitRegistration(device: DeviceId)
      requires Valid() && device in pending
      modifies this`pending, this`outstanding, worker`provisions
      ensures Valid() && State() == V.SubmitPending(old(State()), device)
      ensures pending.Keys == old(pending).Keys
    {
      hide R.Coherent, LaneOk;
      if unavailable || pending[device].submitted {
        return;
      }
      var candidate := pending[device];
      var accepted := worker.SubmitProvision(candidate.registration, candidate.receivedAt);
      pending := pending[device := candidate.(submitted := accepted)];
      if accepted {
        outstanding := outstanding + 1;
      }
    }

    /** Inactive devices expire, and every mutation is marked. */
    method ScanInactive(now: Time, timeout: nat, at: Time) returns (ghost order: seq<DeviceId>, ghost mutations: seq<R.Mutation>)
      requires Valid()
      modifies this`lastReason, this`degraded, this`events, registry, dirty
      ensures Valid() && R.Expires(old(State()).registry, now, timeout, order, mutations)
      ensures State() == V.MarkEach(old(State()).(registry := R.ExpireInactive(old(State()).registry, now, timeout)),
                                    mutations, at)
    {
      hide R.Coherent, LaneOk, V.Mark, R.ExpireInactive, R.Expires;
      var all;
      all, order := registry.ExpireInactive(now, timeout);
      mutations := all;
      ghost var start := State();
      var i := 0;
      while i < |all|
        invariant Valid() && 0 <= i <= |all|
        invariant State() == V.MarkEach(start, all[..i], at)
      {
        V.MarkEachAppend(start, all[..i], all[i], at);
        assert all[..i + 1] == all[..i] + [all[i]];
        Mark(all[i], at);
        i := i + 1;
      }
      assert all[..i] == all;
    }

    /** All writes are taken first and then submitted one by one; `ok` says that none was refused. */
    method TakeAndSend(selection: S.Selection, at: Time) returns (ok: bool, ghost order: seq<DeviceId>)
      requires Valid()
      modifies this`degraded, this`events, this`submitted, this`outstanding, dirty, worker`writes
      ensures Valid() && S.Visits(old(dirty.entries), selection, order)
      ensures (State(), ok) == V.TakeAndSend(old(State()), selection, order, at)
    {
      hide R.Coherent, LaneOk, V.SubmitWrite, S.Visits, S.TakeMatching, S.WritesOf;
      var writes;
      writes, order := dirty.TakeMatching(selection);
      ghost var start := State();
      ok := true;
      var i := 0;
      while i < |writes|
        invariant Valid() && 0 <= i <= |writes|
        invariant (State(), ok) == V.Send(start, writes[..i], at)
      {
        V.SendAppend(start, writes[..i], writes[i], at);
        assert writes[..i + 1] == writes[..i] + [writes[i]];
        var accepted := SubmitWrite(writes[i], at);
        ok := ok && accepted;
        i := i + 1;
      }
      assert writes[..i] == writes;
    }

    method DispatchWrites(interval: nat, at: Time) returns (ghost first: seq<DeviceId>, ghost second: seq<DeviceId>)
      requires Valid()
      modifies this`degraded, this`events, this`submitted, this`outstanding, this`dispatchPending, this`blocked
      modifies dirty, worker`writes
      ensures Valid() && V.Dispatches(old(State()), State(), interval, first, second, at)
    {
      hide R.Coherent, LaneOk, V.TakeAndSend, S.Visits;
      first, second := [], [];
      if unavailable {
        return;
      }
      if inputDrained {
        if blocked {
          return;
        }
        var all;
        all, first := TakeAndSend(S.AllDirty, at);
        if all {
          dispatchPending := false;
        } else {
          blocked := true;
        }
      } else {
        var accepted;
        accepted, first := TakeAndSend(S.AllImmediate, at);
        accepted, second := TakeAndSend(S.TelemetryDue(at, interval), at);
      }
    }

    /** First half of a round: the results, a requested cancellation, the messages. */
    method ProcessInput(at: Time) returns (ghost orders: seq<seq<DeviceId>>)
      requires Valid()
      modifies this, registry, dirty, worker`writes
      ensures Valid() && results == [] && messages == [] && !cancelRequested && nextScan == old(nextScan)
      ensures |orders| == |old(results)|
      ensures State() == V.ReadyInput(old(State()), old(results), orders, old(cancelRequested), old(messages), at)
    {
      hide R.Coherent, LaneOk, V.Cancel, V.HandleResults, V.HandleMessages;
      orders := DrainResults(at);
      if cancelRequested {
        cancelRequested := false;
        CancelWork();
      }
      DrainMessages(at);
    }

    /** Registrations are submitted and inactive devices expire. */
    method ProcessTimers(systemNow: Time, at: Time, timeout: nat)
      returns (ghost submits: seq<DeviceId>, ghost expired: seq<DeviceId>)
      requires Valid()
      modifies this`pending, this`outstanding, this`lastReason, this`degraded, this`events, this`nextScan
      modifies registry, dirty, worker`provisions
      ensures Valid()
      ensures State() == V.ReadyTimers(old(State()), submits, at >= old(nextScan), expired, systemNow, timeout, at)
    {
      hide R.Coherent, LaneOk, V.SubmitEach, V.ExpireEach, V.MarkEach, R.Expires, R.ExpireInactive;
      submits, expired := [], [];
      if !unavailable {
        submits := SubmitRegistrations();
      }
      if at >= nextScan {
        ghost var before := State();
        ghost var mutations;
        expired, mutations := ScanInactive(systemNow, timeout, at);
        ExpiryIsStepwise(before, systemNow, timeout, expired, mutations, at);
        nextScan := at + 1;
      }
    }

    /** One round: input, timers, dispatch. */
    method ProcessReady(systemNow: Time, at: Time, timeout: nat, interval: nat)
      returns (ghost orders: seq<seq<DeviceId>>, ghost submits: seq<DeviceId>, ghost expired: seq<DeviceId>,
               ghost first: seq<DeviceId>, ghost second: seq<DeviceId>)
      requires Valid()
      modifies this, registry, dirty, worker`writes, worker`provisions
      ensures Valid() && results == [] && messages == [] && !cancelRequested
      ensures |orders| == |old(results)|
      ensures var input := V.ReadyInput(old(State()), old(results), orders, old(cancelRequested), old(messages), at);
              var timers := V.ReadyTimers(input, submits, at >= old(nextScan), expired, systemNow, timeout, at);
              V.Dispatches(timers, State(), interval, first, second, at)
    {
      hide R.Coherent, LaneOk, V.Dispatches, V.ReadyInput, V.ReadyTimers;
      orders := ProcessInput(at);
      submits, expired := ProcessTimers(systemNow, at, timeout);
      first, second := DispatchWrites(interval, at);
    }
  }
}
