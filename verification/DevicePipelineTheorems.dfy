/** What holds in every state of every run of the pipeline. */
module DevicePipelineTheorems {
  import opened Wrappers
  import opened DeviceTypes
  import opened DeviceSlices
  import opened DevicePipeline
  import opened DevicePipelineSteps
  import R = DeviceRegistry
  import S = DirtyState
  import W = PostgresWorker
  import V = DeviceService
  import O = DeviceOutcomes
  import P = Collections

  // ---------------------------------------------------------------- start

  function StartupWrite(record: DeviceRecord): DeviceWrite {
    DeviceWrite(R.Expired(record), record.revision + 1, false, true, false, Immediate)
  }

  function InactiveIn(records: map<DeviceId, DeviceRecord>, now: Time, timeout: nat): set<DeviceId> {
    set d | d in records && R.IsInactive(records[d], now, timeout)
  }

  const IDLE_WORKER := W.Worker([], {}, 0, map[], {}, map[], false, true, false)

  /** The directory is loaded from the rows, and devices inactive since the last run expire at once. */
  ghost predicate Init(w: World, snapshot: seq<DeviceRecord>, now: Time, timeout: nat) {
    var loaded := R.LoadFrom(R.Empty(), snapshot);
    && loaded.Success?
    && (forall k :: 0 <= k < |snapshot| ==> snapshot[k].revision == 0)
    && var records := loaded.value.records;
    && w.rows.Keys == records.Keys && (forall d :: d in records ==> w.rows[d] == Row(records[d], UNFLAGGED, 0))
    && w.service == V.Service(R.ExpireInactive(loaded.value, now, timeout), map[], map[], map[], map[], map[], false,
                              false, false, false, 0, IDLE_WORKER.(limit := w.service.worker.limit), [])
    && w.startup.Keys == InactiveIn(records, now, timeout) == w.flagged.Keys
    && (forall d :: d in w.startup ==> w.startup[d] == StartupWrite(records[d]))
    && (forall d :: d in w.flagged ==> w.flagged[d] == Marks(0, 1, 0))
    && w.job == Idle && w.results == [] && w.lost == {} && w.refusals == 0 && w.stored == []
  }

  /** A device as start-up leaves it: its row loaded, and offline with a write to come when it expired. */
  function StartSlice(record: DeviceRecord, expired: bool): Slice {
    Slice(Some(if expired then R.Expired(record) else record), None,
          if expired then Some(StartupWrite(record)) else None, None, None, Some(Row(record, UNFLAGGED, 0)),
          if expired then Marks(0, 1, 0) else UNFLAGGED, None, false, true)
  }

  lemma StartSliceOk(record: DeviceRecord, expired: bool)
    requires record.revision == 0
    ensures SliceOk(StartSlice(record, expired))
  {
    var s := StartSlice(record, expired);
    forall g: Group ensures Covered(s, g) {
      if expired && g == Status {
        assert Carries(s, s.startup, g);
      } else {
        assert InRow(s, g);
      }
    }
  }

  lemma InitSlice(w: World, snapshot: seq<DeviceRecord>, now: Time, timeout: nat, d: DeviceId)
    requires Init(w, snapshot, now, timeout)
    ensures SliceOk(SliceOf(w, d))
  {
    EmptyIsCoherent();
    R.LoadKeeps(R.Empty(), snapshot);
    var records := R.LoadFrom(R.Empty(), snapshot).value.records;
    hide SliceOk, R.LoadFrom, R.Coherent;
    if d in records {
      assert records[d] in snapshot;
      var expired := d in InactiveIn(records, now, timeout);
      assert SliceOf(w, d) == StartSlice(records[d], expired);
      StartSliceOk(records[d], expired);
    } else {
      assert SliceOk(SliceOf(w, d)) by {
        NothingOk(SliceOf(w, d));
      }
    }
  }

  lemma NothingOk(s: Slice)
    requires s.registered.None? && Unregistered(s)
    ensures SliceOk(s)
  {
  }

  lemma EmptyIsCoherent()
    ensures R.Coherent(R.Empty())
  {
  }

  lemma InitHolds(w: World, snapshot: seq<DeviceRecord>, now: Time, timeout: nat)
    requires Init(w, snapshot, now, timeout)
    ensures Inv(w)
  {
    forall d ensures SliceOk(SliceOf(w, d)) {
      InitSlice(w, snapshot, now, timeout, d);
    }
    EmptyIsCoherent();
    R.LoadKeeps(R.Empty(), snapshot);
    var loaded := R.LoadFrom(R.Empty(), snapshot).value;
    R.ExpiryKeeps(loaded, now, timeout);
    forall d | d in w.rows ensures w.rows[d].record.device == d && w.rows[d].record.revision == 0 {
      assert loaded.records[d] in snapshot;
    }
  }

  // ---------------------------------------------------------------- runs

  ghost predicate Follows(w: World, after: World) {
    exists step :: Enabled(w, step) && after == Next(w, step)
  }

  ghost predicate Starts(w: World) {
    exists snapshot, now, timeout :: Init(w, snapshot, now, timeout)
  }

  ghost predicate IsRun(run: seq<World>) {
    |run| > 0 && Starts(run[0]) &&
    forall i, j :: 0 <= i < |run| && 0 <= j < |run| && j == i + 1 ==> Follows(run[i], run[j])
  }

  lemma {:induction false} InvariantHolds(run: seq<World>, i: nat)
    requires IsRun(run) && i < |run|
    ensures Inv(run[i])
    decreases i
  {
    hide Inv, Init, Next, Enabled;
    if i == 0 {
      var snapshot, now, timeout :| Init(run[0], snapshot, now, timeout);
      InitHolds(run[0], snapshot, now, timeout);
    } else {
      InvariantHolds(run, i - 1);
      assert Follows(run[i - 1], run[i]);
      var step :| Enabled(run[i - 1], step) && run[i] == Next(run[i - 1], step);
      NextKeeps(run[i - 1], step);
    }
  }

  // ---------------------------------------------------------------- nothing reversed, nothing lost

  /** Writes for one device reach the database in nondecreasing revision order. */
  lemma WritesReachTheTableInOrder(run: seq<World>, i: nat)
    requires IsRun(run) && i < |run|
    ensures var stored := run[i].stored;
            forall k, l :: 0 <= k < l < |stored| && stored[k].0 == stored[l].0 ==> stored[k].1 <= stored[l].1
  {
    hide Inv, IsRun;
    InvariantHolds(run, i);
    StoredFacts(run[i]);
  }

  lemma StoredFacts(w: World)
    requires Inv(w)
    ensures StoredInOrder(w) && Accounted(w)
  {
  }

  /** Somewhere between the directory and the table there is a write of the group, no older than its last flagging. */
  ghost predicate OnItsWay(w: World, device: DeviceId, group: Group) {
    var since := FlaggedAt(w, device).At(group);
    var worker := w.service.worker;
    || (device in w.service.dirty && w.service.dirty[device].At(group).dirty != 0 && w.service.dirty[device].revision >= since)
    || (device in worker.writes && worker.writes[device].Flags(group) && worker.writes[device].revision >= since)
    || (w.job.Writing? && w.job.write.record.device == device && w.job.write.Flags(group) && w.job.write.revision >= since)
    || (device in w.startup && w.startup[device].Flags(group) && w.startup[device].revision >= since)
  }

  ghost predicate InTheTable(w: World, device: DeviceId, group: Group) {
    && device in w.rows && device in w.service.registry.records
    && w.rows[device].written.At(group) >= FlaggedAt(w, device).At(group)
    && ContentOf(w.rows[device].record, group) == ContentOf(w.service.registry.records[device], group)
  }

  /** Every flagged group of a device none of whose writes was refused for good or cancelled is stored, dirty, queued or executing. */
  lemma NoFlaggedChangeIsLost(run: seq<World>, i: nat, device: DeviceId, group: Group)
    requires IsRun(run) && i < |run| && device in run[i].service.registry.records && device !in run[i].lost
    ensures InTheTable(run[i], device, group) || OnItsWay(run[i], device, group)
  {
    hide Inv, IsRun;
    InvariantHolds(run, i);
    NotLost(run[i], device, group);
  }

  lemma NotLost(w: World, device: DeviceId, group: Group)
    requires Inv(w) && device in w.service.registry.records && device !in w.lost
    ensures InTheTable(w, device, group) || OnItsWay(w, device, group)
  {
    var s := SliceOf(w, device);
    assert SliceOk(s);
    assert Covered(s, group);
  }

  /** Nothing is queued, executing or dirty for the device. */
  ghost predicate Quiet(w: World, device: DeviceId) {
    && (device in w.service.dirty ==> !S.HasDirty(w.service.dirty[device]))
    && device !in w.service.worker.writes && device !in w.startup
    && !(w.job.Writing? && w.job.write.record.device == device)
  }

  /** At quiescence the row's metadata, status value and telemetry equal the directory's. */
  lemma QuietRowEqualsDirectory(run: seq<World>, i: nat, device: DeviceId, group: Group)
    requires IsRun(run) && i < |run| && device in run[i].service.registry.records && device !in run[i].lost
    requires Quiet(run[i], device)
    ensures device in run[i].rows
    ensures ContentOf(run[i].rows[device].record, group) == ContentOf(run[i].service.registry.records[device], group)
  {
    hide Inv, IsRun;
    InvariantHolds(run, i);
    QuietRow(run[i], device, group);
  }

  lemma QuietRow(w: World, device: DeviceId, group: Group)
    requires Inv(w) && device in w.service.registry.records && device !in w.lost && Quiet(w, device)
    ensures device in w.rows
    ensures ContentOf(w.rows[device].record, group) == ContentOf(w.service.registry.records[device], group)
  {
    var s := SliceOf(w, device);
    assert SliceOk(s);
    QuietMeansEqual(s);
  }

  /** A device is only lost when a write for it was refused for good, or dropped by a cancellation or a closed worker. */
  lemma OnlyRefusalsLose(w: World, step: Step, device: DeviceId)
    requires Inv(w) && Enabled(w, step) && device !in w.lost && device in Next(w, step).lost
    ensures || (step.FinishWrite? && step.written == W.Refused(W.Permanent) && w.job.write.record.device == device)
            || (step.Reconnect? && step.connected == W.Refused(W.Permanent) && device in w.service.worker.writes)
            || (step.CancelWork? && device in w.service.dirty)
            || (step.QueueStartup? && !w.service.worker.accepting && step.device == device)
  {
    hide Inv;
  }

  // ---------------------------------------------------------------- degraded devices

  /** While a device is degraded, its stored revision is at least the directory's. */
  lemma DegradedIsAccurate(run: seq<World>, i: nat, device: DeviceId)
    requires IsRun(run) && i < |run| && device in run[i].service.degraded
    ensures device in run[i].service.registry.records
    ensures run[i].service.degraded[device] >= run[i].service.registry.records[device].revision
  {
    hide Inv, IsRun;
    InvariantHolds(run, i);
    DegradedInState(run[i], device);
  }

  lemma DegradedInState(w: World, device: DeviceId)
    requires Inv(w) && device in w.service.degraded
    ensures device in w.service.registry.records
    ensures w.service.degraded[device] >= w.service.registry.records[device].revision
  {
    DegradedRegistered(w, device);
  }

  /** The announcement that a device is no longer degraded. */
  predicate Announces(event: V.Event) {
    event.reason.Recovery? && !event.degraded
  }

  ghost predicate Grows(events: seq<V.Event>, after: seq<V.Event>) {
    events <= after && forall k :: |events| <= k < |after| ==> !Announces(after[k])
  }

  lemma OneMore(events: seq<V.Event>, event: V.Event)
    requires !Announces(event)
    ensures Grows(events, events + [event])
  {
  }

  lemma MarkAnnouncesNothing(s: V.Service, mutation: R.Mutation, at: Time)
    requires !mutation.reason.Recovery?
    ensures Grows(s.events, V.Mark(s, mutation, at).events)
  {
    hide S.Mark;
  }

  lemma DegradeAnnouncesNothing(s: V.Service, device: DeviceId, revision: nat)
    ensures Grows(s.events, V.Degrade(s, device, revision).events)
  {
    if device in s.registry.records {
      OneMore(s.events, V.Event(s.registry.records[device], V.ReasonOf(s, device), true));
    }
  }

  lemma SubmitAnnouncesNothing(s: V.Service, write: DeviceWrite, at: Time)
    ensures Grows(s.events, V.SubmitWrite(s, write, at).0.events)
  {
    hide S.Restore, W.SubmitWrite, V.Degrade, Grows;
    DegradeAnnouncesNothing(s.(dirty := S.Restore(s.dirty, write, at)), write.record.device, 0);
    assert Grows(s.events, s.events) by {
      GrowsNot(s.events);
    }
  }

  lemma GrowsNot(events: seq<V.Event>)
    ensures Grows(events, events)
  {
  }

  lemma ProvisionedAnnouncesNothing(s: V.Service, device: DeviceId, record: DeviceRecord, at: Time)
    ensures Grows(s.events, V.HandleProvisioned(s, device, record, at).events)
  {
    hide V.Mark, R.AddProvisioned, Grows;
    GrowsNot(s.events);
    if device in s.pending && R.AddProvisioned(s.registry, record).Success? {
      var registry := R.AddProvisioned(s.registry, record).value;
      var candidate := s.pending[device];
      var added := s.(registry := registry, pending := s.pending - {device},
                      outstanding := if candidate.submitted then s.outstanding - 1 else s.outstanding);
      var result := R.ApplyRegistration(registry, candidate.registration, candidate.receivedAt);
      if result.Success? {
        MarkAnnouncesNothing(added.(registry := result.value.0), result.value.1, at);
      }
    }
  }

  lemma CompletionAnnounces(s: V.Service, device: DeviceId, revision: nat)
    ensures var after := V.HandleCompleted(s, device, revision);
            after.events == s.events ||
            (device in s.degraded && revision >= s.degraded[device] && device in s.registry.records &&
             after.events == s.events + [V.Event(s.registry.records[device], R.Recovery, false)] &&
             after.registry == s.registry)
  {
    SettleKeepsDegraded(s, device, revision);
    hide V.Settle;
    if device in s.degraded && revision >= s.degraded[device] {
      var recovered := V.Settle(s, device, revision).(degraded := s.degraded - {device});
      assert recovered.events == s.events && recovered.registry == s.registry;
    }
  }

  lemma MutationAnnouncesNothing(w: World, step: Step)
    requires Enabled(w, step) && (step.Register? || step.Tell? || step.Expire?)
    ensures Grows(w.service.events, Next(w, step).service.events)
  {
    hide V.Mark, Grows;
    var s := w.service;
    GrowsNot(s.events);
    match step
    case Register(registration, receivedAt, at) =>
      var result := R.ApplyRegistration(s.registry, registration, receivedAt);
      if result.Success? {
        MarkAnnouncesNothing(s.(registry := result.value.0), result.value.1, at);
      }
    case Tell(device, payload, deviceType, receivedAt, at) =>
      var result := R.ApplyTelemetry(s.registry, device, Report(payload, None, deviceType), receivedAt);
      if result.Success? {
        MarkAnnouncesNothing(s.(registry := result.value.0), result.value.1, at);
      }
    case Expire(device, now, timeout, at) =>
      if device in s.registry.records {
        var record := s.registry.records[device];
        MarkAnnouncesNothing(s.(registry := s.registry.(records := s.registry.records[device := R.Expired(record)])),
                             R.ExpiryOf(record), at);
      }
  }

  /** Only a completed write at the degraded revision or later announces a recovery. */
  lemma StepAnnounces(w: World, step: Step)
    requires Enabled(w, step)
    requires !(step.HandleNext? && w.results[0].WriteCompleted?)
    ensures Grows(w.service.events, Next(w, step).service.events)
  {
    hide V.SubmitWrite, Grows, HandledNext, V.HandleRegistration, V.HandleReport, V.ExpireOne, R.ApplyRegistration;
    hide R.ApplyTelemetry;
    var s := w.service;
    GrowsNot(s.events);
    match step
    case Dispatch(device, at) =>
      SubmitAnnouncesNothing(s.(dirty := S.TakeOne(s.dirty, device)), S.WriteOf(s.dirty[device]), at);
    case Recover(device, at) =>
      if device in s.registry.records {
        SubmitAnnouncesNothing(s, V.FullWrite(s.registry.records[device]), at);
      }
    case HandleNext(at) => ResultAnnounces(w, at);
    case _ =>
      if step.Register? || step.Tell? || step.Expire? {
        MutationAnnouncesNothing(w, step);
      }
  }

  lemma HandledService(w: World, at: Time)
    requires |w.results| > 0
    ensures HandledNext(w, at).service == V.HandleResult(w.service, w.results[0], [], at)
  {
    hide V.HandleResult, R.AddProvisioned, R.ApplyRegistration;
  }

  lemma ResultAnnounces(w: World, at: Time)
    requires |w.results| > 0 && !w.results[0].WriteCompleted?
    ensures Grows(w.service.events, HandledNext(w, at).service.events)
  {
    HandledService(w, at);
    hide HandledNext, V.HandleProvisioned, V.Degrade, Grows;
    var s := w.service;
    GrowsNot(s.events);
    match w.results[0]
    case Provisioned(device, record) => ProvisionedAnnouncesNothing(s, device, record, at);
    case DatabaseUnavailable(device, revision) => DegradeAnnouncesNothing(s.(unavailable := true), device, revision);
    case PermanentFailure(failed, revision) =>
      if failed.Some? {
        var device := failed.value;
        var finished := (if device in V.SubmittedIn(s.pending) then 1 else 0) + (if device in s.submitted then 1 else 0);
        DegradeAnnouncesNothing(s.(pending := s.pending - {device}, submitted := s.submitted - {device},
                                   outstanding := s.outstanding - finished), device, revision);
      }
    case DatabaseRecovered =>
  }

  /**
   For every device, lost or not: a recovery is announced only by the completion of a write that reached
   the table, at the degraded revision or later, which is at least the directory's.
   */
  lemma AnnouncementFollowsWrite(run: seq<World>, i: nat, k: nat)
    requires IsRun(run) && i + 1 < |run|
    requires |run[i].service.events| <= k < |run[i + 1].service.events| && Announces(run[i + 1].service.events[k])
    ensures var w := run[i];
            var device := run[i + 1].service.events[k].record.device;
            && |w.results| > 0 && w.results[0].WriteCompleted? && w.results[0].device == device
            && device in w.service.degraded && w.results[0].revision >= w.service.degraded[device]
            && device in w.service.registry.records
            && w.service.degraded[device] >= w.service.registry.records[device].revision
            && (device, w.results[0].revision) in w.stored
  {
    hide Inv, Init, Next, Enabled;
    InvariantHolds(run, i);
    assert Follows(run[i], run[i + 1]);
    var step :| Enabled(run[i], step) && run[i + 1] == Next(run[i], step);
    AnnouncementInStep(run[i], step, k);
  }

  lemma AnnouncementInStep(w: World, step: Step, k: nat)
    requires Inv(w) && Enabled(w, step)
    requires |w.service.events| <= k < |Next(w, step).service.events| && Announces(Next(w, step).service.events[k])
    ensures var device := Next(w, step).service.events[k].record.device;
            && |w.results| > 0 && w.results[0].WriteCompleted? && w.results[0].device == device
            && device in w.service.degraded && w.results[0].revision >= w.service.degraded[device]
            && device in w.service.registry.records
            && w.service.degraded[device] >= w.service.registry.records[device].revision
            && (device, w.results[0].revision) in w.stored
  {
    hide Inv;
    if !(step.HandleNext? && w.results[0].WriteCompleted?) {
      hide Next, Enabled;
      StepAnnounces(w, step);
    } else {
      var device := w.results[0].device;
      CompletionAnnounces(w.service, device, w.results[0].revision);
      hide V.HandleCompleted;
      DegradedInState(w, device);
      CompletionIsStored(w);
    }
  }

  lemma CompletionIsStored(w: World)
    requires Inv(w) && |w.results| > 0 && w.results[0].WriteCompleted?
    ensures (w.results[0].device, w.results[0].revision) in w.stored
    ensures forall d :: d in w.service.registry.records ==> w.service.registry.records[d].device == d
  {
    assert ResultOk(w, w.results[0]);
  }

  /** A recovery is announced only when the row holds everything the directory does. */
  lemma RecoveryIsTrue(run: seq<World>, i: nat, k: nat, group: Group)
    requires IsRun(run) && i + 1 < |run|
    requires |run[i].service.events| <= k < |run[i + 1].service.events| && Announces(run[i + 1].service.events[k])
    ensures var w := run[i + 1];
            var record := w.service.events[k].record;
            && record.device in w.service.registry.records && record == w.service.registry.records[record.device]
            && (record.device !in w.lost ==> InTheTable(w, record.device, group))
  {
    hide Inv, Init, Next, Enabled;
    InvariantHolds(run, i);
    InvariantHolds(run, i + 1);
    assert Follows(run[i], run[i + 1]);
    var step :| Enabled(run[i], step) && run[i + 1] == Next(run[i], step);
    AnnouncedInStep(run[i], step, k, group);
  }

  lemma AnnouncedInStep(w: World, step: Step, k: nat, group: Group)
    requires Inv(w) && Enabled(w, step) && Inv(Next(w, step))
    requires |w.service.events| <= k < |Next(w, step).service.events| && Announces(Next(w, step).service.events[k])
    ensures var t := Next(w, step);
            var record := t.service.events[k].record;
            && record.device in t.service.registry.records && record == t.service.registry.records[record.device]
            && (record.device !in t.lost ==> InTheTable(t, record.device, group))
  {
    hide Inv;
    if !(step.HandleNext? && w.results[0].WriteCompleted?) {
      hide Next, Enabled;
      StepAnnounces(w, step);
    } else {
      var device := w.results[0].device;
      var revision := w.results[0].revision;
      CompletionAnnounces(w.service, device, revision);
      hide V.HandleCompleted;
      DegradedInState(w, device);
      CompletedInTable(w, device, revision, group);
    }
  }

  lemma CompletedInTable(w: World, device: DeviceId, revision: nat, group: Group)
    requires Inv(w) && |w.results| > 0 && w.results[0] == WriteCompleted(device, revision)
    requires device in w.service.registry.records && revision >= w.service.registry.records[device].revision
    ensures w.service.registry.records[device].device == device
    ensures device !in w.lost ==> InTheTable(w, device, group)
  {
    var s := SliceOf(w, device);
    assert ResultOk(w, w.results[0]);
    assert SliceOk(s);
    if device !in w.lost {
      assert s.flagged.At(group) <= revision;
      CompletedMeansEqual(s, revision);
    }
  }

  // ---------------------------------------------------------------- accounting

  /** The outstanding work is counted exactly when no provisioned record was refused since the last cancellation. */
  lemma OutstandingIsExact(run: seq<World>, i: nat)
    requires IsRun(run) && i < |run|
    ensures var s := run[i].service;
            && s.outstanding == |s.submitted| + |V.SubmittedIn(s.pending)| - run[i].refusals
            && (s.outstanding == |s.submitted| + |V.SubmittedIn(s.pending)| <==> run[i].refusals == 0)
  {
    hide Inv, IsRun;
    InvariantHolds(run, i);
    StoredFacts(run[i]);
  }

  /** A record the database provisioned is refused exactly when another device of the directory holds its label. */
  lemma RefusedForItsLabel(run: seq<World>, i: nat)
    requires IsRun(run) && i < |run|
    requires var w := run[i];
             |w.results| > 0 && w.results[0].Provisioned? && w.results[0].device in w.service.pending
    ensures var w := run[i];
            var record := w.results[0].record;
            R.AddProvisioned(w.service.registry, record).Failure? <==>
              record.dcdwLabel.Some? &&
              exists d :: d in w.service.registry.records && R.RoleOf(w.service.registry.records[d]) == R.RoleOf(record)
  {
    hide Inv, IsRun;
    InvariantHolds(run, i);
    RefusedInState(run[i]);
  }

  lemma RefusedInState(w: World)
    requires Inv(w) && |w.results| > 0 && w.results[0].Provisioned? && w.results[0].device in w.service.pending
    ensures var record := w.results[0].record;
            R.AddProvisioned(w.service.registry, record).Failure? <==>
              record.dcdwLabel.Some? &&
              exists d :: d in w.service.registry.records && R.RoleOf(w.service.registry.records[d]) == R.RoleOf(record)
  {
    assert ResultOk(w, w.results[0]);
    R.LoadOneKeeps(w.service.registry, w.results[0].record);
  }

  // ---------------------------------------------------------------- provisioning

  /** A device that has a row keeps it; a new one gets a row that says what its registration says. */
  lemma ProvisionedRow(rows: map<DeviceId, Row>, provision: W.Provision, schoolId: int)
    ensures var registration := provision.registration;
            var after := DevicePipeline.Provisioned(rows, provision, schoolId);
            if registration.device in rows then after == rows
            else
              && after.Keys == rows.Keys + {registration.device} && (forall d :: d in rows ==> after[d] == rows[d])
              && var record := after[registration.device].record;
                 && record.device == registration.device && record.revision == 0 && record.telemetry.None?
                 && (record.status.Online? <==> registration.online)
                 && record.lastSeen == (if registration.online then Some(provision.at) else None)
                 && record.dcdwLabel == registration.dcdwLabel && record.deviceType == registration.deviceType
                 && (registration.schoolName.Some? ==>
                       record.schoolId == schoolId && record.schoolName == registration.schoolName.value)
                 && (registration.schoolName.None? ==> record.schoolId == 0 && record.schoolName == "")
                 && record.capabilities == registration.capabilities && record.product == registration.product
                 && record.version == registration.version
  {
  }

  // ---------------------------------------------------------------- recovery

  /**
   In every state of every run: once the database is back, each degraded device is in the directory and its
   whole record there is on its way again; while the worker takes nothing it waits in the cache.
   */
  lemma RecoveryWritesTheDirectory(run: seq<World>, i: nat, order: seq<DeviceId>, at: Time)
    requires IsRun(run) && i < |run| && P.NoDuplicates(order)
    requires forall d :: d in order <==> d in run[i].service.degraded
    ensures var s := run[i].service;
            var after := V.HandleResult(s, DatabaseRecovered, order, at);
            && !after.unavailable
            && forall d :: d in s.degraded ==>
                 && d in s.registry.records
                 && if s.worker.accepting then
                      O.IsRewritten(after, d) && after.worker.writes[d].record == s.registry.records[d]
                    else O.IsKeptDirty(after, d)
  {
    hide Inv, IsRun, O.IsRewritten, O.IsKeptDirty, V.HandleResult;
    InvariantHolds(run, i);
    RecoveryFacts(run[i]);
    O.RecoveredOutcome(run[i].service, order, at);
  }

  lemma RecoveryFacts(w: World)
    requires Inv(w)
    ensures O.Keyed(w.service) && O.NothingAhead(w.service)
    ensures forall d :: d in w.service.degraded ==> d in w.service.registry.records
  {
    R.KeyedByDevice(w.service.registry);
    forall d | d in w.service.worker.writes && d in w.service.registry.records
      ensures w.service.worker.writes[d].revision <= w.service.registry.records[d].revision
    {
      assert SliceOk(SliceOf(w, d));
    }
    forall d | d in w.service.degraded ensures d in w.service.registry.records {
      assert SliceOk(SliceOf(w, d));
    }
  }

  // ---------------------------------------------------------------- start-up writes

  /** A start-up write still to be queued is as new as anything its device has, down to the table. */
  lemma StartupWriteIsNewest(run: seq<World>, i: nat, device: DeviceId)
    requires IsRun(run) && i < |run| && device in run[i].startup
    ensures var w := run[i];
            var revision := w.startup[device].revision;
            && device in w.service.registry.records && w.service.registry.records[device].revision == revision
            && device in w.rows && w.rows[device].newest <= revision
            && (device in w.service.worker.writes ==> w.service.worker.writes[device].revision <= revision)
            && (w.job.Writing? && w.job.write.record.device == device ==> w.job.write.revision <= revision)
  {
    hide Inv, IsRun;
    InvariantHolds(run, i);
    StartupInState(run[i], device);
  }

  lemma StartupInState(w: World, device: DeviceId)
    requires Inv(w) && device in w.startup
    ensures var revision := w.startup[device].revision;
            && device in w.service.registry.records && w.service.registry.records[device].revision == revision
            && device in w.rows && w.rows[device].newest <= revision
            && (device in w.service.worker.writes ==> w.service.worker.writes[device].revision <= revision)
            && (w.job.Writing? && w.job.write.record.device == device ==> w.job.write.revision <= revision)
  {
    var s := SliceOf(w, device);
    assert SliceOk(s);
    StartupIsNewest(s);
  }
}
