/** Every step of the pipeline keeps its invariant. */
module DevicePipelineSteps {
  import opened Wrappers
  import opened Collections
  import opened DeviceTypes
  import opened DeviceSlices
  import opened DevicePipeline
  import R = DeviceRegistry
  import S = DirtyState
  import W = PostgresWorker
  import V = DeviceService

  // ---------------------------------------------------------------- from one device to all

  lemma OneSlice(w: World, t: World, device: DeviceId)
    requires SlicesOk(w) && forall d :: d != device ==> SliceOf(t, d) == SliceOf(w, d)
    requires SliceOk(SliceOf(t, device)) && Advances(SliceOf(w, device), SliceOf(t, device))
    ensures SlicesOk(t) && Moves(w, t)
  {
    hide SliceOk, Advances;
    forall d ensures SliceOk(SliceOf(t, d)) && Advances(SliceOf(w, d), SliceOf(t, d)) {
      assert SliceOk(SliceOf(w, d));
      StandsStill(SliceOf(w, d));
    }
  }

  lemma StandsStill(s: Slice)
    ensures Advances(s, s)
  {
  }

  lemma SameSlices(w: World, t: World)
    requires SlicesOk(w) && forall d :: SliceOf(t, d) == SliceOf(w, d)
    ensures SlicesOk(t) && Moves(w, t)
  {
    hide SliceOk, Advances;
    forall d ensures SliceOk(SliceOf(t, d)) && Advances(SliceOf(w, d), SliceOf(t, d)) {
      assert SliceOk(SliceOf(w, d));
      StandsStill(SliceOf(w, d));
    }
  }

  lemma ResultStays(w: World, t: World, result: DatabaseResult)
    requires Moves(w, t) && ResultOk(w, result) && w.stored <= t.stored
    ensures ResultOk(t, result)
  {
    match result
    case Provisioned(device, record) => assert Advances(SliceOf(w, device), SliceOf(t, device));
    case WriteCompleted(device, revision) => CompletionStays(SliceOf(w, device), SliceOf(t, device), revision);
    case _ =>
  }

  lemma ResultsStay(w: World, t: World)
    requires Moves(w, t) && ResultsOk(w) && t.results == w.results && w.stored <= t.stored
    ensures ResultsOk(t)
  {
    hide Moves, ResultOk;
    forall k | 0 <= k < |t.results| ensures ResultOk(t, t.results[k]) {
      ResultStays(w, t, t.results[k]);
    }
  }

  lemma ResultsGrow(w: World, t: World, result: DatabaseResult)
    requires Moves(w, t) && ResultsOk(w) && t.results == w.results + [result] && ResultOk(t, result)
    requires w.stored <= t.stored
    ensures ResultsOk(t)
  {
    hide Moves, ResultOk;
    forall k | 0 <= k < |w.results| ensures ResultOk(t, t.results[k]) {
      ResultStays(w, t, t.results[k]);
    }
  }

  lemma StoredStays(w: World, t: World)
    requires Moves(w, t) && StoredInOrder(w) && t.stored == w.stored
    ensures StoredInOrder(t)
  {
    hide Advances;
    forall k | 0 <= k < |t.stored|
      ensures t.stored[k].0 in t.rows && t.stored[k].1 <= t.rows[t.stored[k].0].newest
    {
      RowAdvances(w, t, t.stored[k].0);
    }
  }

  lemma RowAdvances(w: World, t: World, device: DeviceId)
    requires Moves(w, t) && device in w.rows
    ensures device in t.rows && w.rows[device].newest <= t.rows[device].newest
  {
    assert Advances(SliceOf(w, device), SliceOf(t, device));
  }

  /** What a step has to show when the result queue and the table log stay as they are. */
  lemma Keeps(w: World, t: World)
    requires Inv(w) && R.Coherent(t.service.registry) && SlicesOk(t) && Moves(w, t) && KeysOk(t) && Accounted(t)
    requires t.results == w.results && t.stored == w.stored
    ensures Inv(t)
  {
    hide R.Coherent, SlicesOk, Moves, KeysOk, Accounted;
    ResultsStay(w, t);
    StoredStays(w, t);
  }

  /** Device work the slices do not show. */
  lemma UnseenKeeps(w: World, t: World)
    requires Inv(w) && KeysOk(t) && Accounted(t) && t.results == w.results && t.stored == w.stored
    requires t.service.registry == w.service.registry && t.service.dirty == w.service.dirty && t.startup == w.startup
    requires t.service.worker.writes == w.service.worker.writes && t.rows == w.rows && t.flagged == w.flagged
    requires t.service.degraded == w.service.degraded && t.lost == w.lost
    requires t.service.worker.accepting == w.service.worker.accepting
    requires t.job == w.job || (!t.job.Writing? && !w.job.Writing?)
    ensures Inv(t)
  {
    hide SlicesOk, Moves, R.Coherent, KeysOk, Accounted;
    forall d ensures SliceOf(t, d) == SliceOf(w, d) {
    }
    SameSlices(w, t);
    Keeps(w, t);
  }

  // ---------------------------------------------------------------- mutations

  /** The mutation of one device was applied to the directory and marked. */
  lemma MarkedSlices(w: World, t: World, registry: R.Registry, mutation: R.Mutation, at: Time)
    requires SlicesOk(w) && Mutates(SliceOf(w, mutation.record.device), mutation)
    requires registry.records == w.service.registry.records[mutation.record.device := mutation.record]
    requires t == After(w, V.Mark(w.service.(registry := registry), mutation, at), Some(mutation))
    ensures SlicesOk(t) && Moves(w, t)
  {
    var device := mutation.record.device;
    var s := SliceOf(w, device);
    hide SliceOk, Advances, R.Advances, S.MarkEntry, Mutates;
    var degraded := if V.IsDegraded(w.service, device) then Some(mutation.record.revision) else None;
    assert SliceOf(t, device) == Mutated(s, mutation, degraded, at) by {
      MarkedSlice(w, t, registry, mutation, at);
    }
    assert SliceOk(s);
    MutatedOk(s, mutation, degraded, at);
    forall d | d != device ensures SliceOf(t, d) == SliceOf(w, d) {
    }
    OneSlice(w, t, device);
  }

  lemma MarkedSlice(w: World, t: World, registry: R.Registry, mutation: R.Mutation, at: Time)
    requires registry.records == w.service.registry.records[mutation.record.device := mutation.record]
    requires t == After(w, V.Mark(w.service.(registry := registry), mutation, at), Some(mutation))
    ensures var device := mutation.record.device;
            SliceOf(t, device) ==
              Mutated(SliceOf(w, device), mutation,
                      if V.IsDegraded(w.service, device) then Some(mutation.record.revision) else None, at)
  {
    assert V.WriteFor(mutation).record.device == mutation.record.device;
  }

  lemma MarkedKeeps(w: World, t: World, registry: R.Registry, mutation: R.Mutation, at: Time)
    requires Inv(w) && Mutates(SliceOf(w, mutation.record.device), mutation) && R.Coherent(registry)
    requires registry.records == w.service.registry.records[mutation.record.device := mutation.record]
    requires t == After(w, V.Mark(w.service.(registry := registry), mutation, at), Some(mutation))
    ensures Inv(t) && Moves(w, t)
  {
    hide SlicesOk, Moves, R.Coherent, Mutates, ResultsOk, StoredInOrder, S.Mark;
    MarkedSlices(w, t, registry, mutation, at);
    assert mutation.record.device in w.service.registry.records by {
      MutatesMember(w, mutation);
    }
    assert KeysOk(t) && Accounted(t);
    Keeps(w, t);
  }

  lemma MutatesMember(w: World, mutation: R.Mutation)
    requires Mutates(SliceOf(w, mutation.record.device), mutation)
    ensures mutation.record.device in w.service.registry.records
  {
  }

  lemma RegistrationMutates(w: World, registration: Registration, receivedAt: Time)
    requires R.Coherent(w.service.registry) && registration.device !in w.startup
    requires R.ApplyRegistration(w.service.registry, registration, receivedAt).Success?
    ensures var (registry, mutation) := R.ApplyRegistration(w.service.registry, registration, receivedAt).value;
            && Mutates(SliceOf(w, mutation.record.device), mutation) && R.Coherent(registry)
            && registry.records == w.service.registry.records[mutation.record.device := mutation.record]
            && mutation.record.device == registration.device
  {
    R.RegistrationAdvances(w.service.registry, registration, receivedAt);
    R.RegistrationKeeps(w.service.registry, registration, receivedAt);
  }

  lemma RegisterKeeps(w: World, registration: Registration, receivedAt: Time, at: Time)
    requires Inv(w) && w.startup == map[]
    ensures Inv(Next(w, Register(registration, receivedAt, at)))
  {
    var t := Next(w, Register(registration, receivedAt, at));
    var result := R.ApplyRegistration(w.service.registry, registration, receivedAt);
    if registration.device !in w.service.registry.records {
      WaitingKeeps(w, registration, receivedAt, at);
    } else if result.Success? {
      RegistrationMutates(w, registration, receivedAt);
      hide Inv, R.Coherent, Mutates, V.Mark, R.ApplyRegistration;
      MarkedKeeps(w, t, result.value.0, result.value.1, at);
    }
  }

  /** An unknown device waits, with its newest registration. */
  lemma WaitingKeeps(w: World, registration: Registration, receivedAt: Time, at: Time)
    requires Inv(w) && w.startup == map[] && registration.device !in w.service.registry.records
    ensures Inv(Next(w, Register(registration, receivedAt, at)))
  {
    var t := Next(w, Register(registration, receivedAt, at));
    hide SlicesOk, Moves, R.Coherent, ResultsOk, StoredInOrder;
    assert R.ApplyRegistration(w.service.registry, registration, receivedAt).Failure?;
    hide R.ApplyRegistration;
    if !w.service.unavailable {
      assert V.SubmittedIn(t.service.pending) == V.SubmittedIn(w.service.pending);
    }
    hide V.SubmittedIn;
    UnseenKeeps(w, t);
  }

  lemma ReportMutates(w: World, device: DeviceId, report: Report, receivedAt: Time)
    requires Inv(w) && report.dcdwLabel.None? && device !in w.startup
    requires R.ApplyTelemetry(w.service.registry, device, report, receivedAt).Success?
    ensures var (registry, mutation) := R.ApplyTelemetry(w.service.registry, device, report, receivedAt).value;
            && Mutates(SliceOf(w, mutation.record.device), mutation) && R.Coherent(registry)
            && registry.records == w.service.registry.records[mutation.record.device := mutation.record]
            && mutation.record.device == device
  {
    hide SlicesOk, ResultsOk, StoredInOrder, KeysOk, Accounted;
    R.TelemetryAdvances(w.service.registry, device, report, receivedAt);
    R.TelemetryKeeps(w.service.registry, device, report, receivedAt);
  }

  lemma TellKeeps(w: World, device: DeviceId, payload: string, deviceType: Option<DeviceType>, receivedAt: Time, at: Time)
    requires Inv(w) && w.startup == map[]
    ensures Inv(Next(w, Tell(device, payload, deviceType, receivedAt, at)))
  {
    var report := Report(payload, None, deviceType);
    var t := Next(w, Tell(device, payload, deviceType, receivedAt, at));
    var result := R.ApplyTelemetry(w.service.registry, device, report, receivedAt);
    if result.Success? {
      ReportMutates(w, device, report, receivedAt);
      hide Inv, R.Coherent, Mutates, V.Mark, R.ApplyTelemetry;
      MarkedKeeps(w, t, result.value.0, result.value.1, at);
    }
  }

  lemma ExpireKeeps(w: World, device: DeviceId, now: Time, timeout: nat, at: Time)
    requires Inv(w)
    ensures Inv(Next(w, Expire(device, now, timeout, at)))
  {
    var t := Next(w, Expire(device, now, timeout, at));
    var records := w.service.registry.records;
    if device in records && R.IsInactive(records[device], now, timeout) {
      var mutation := R.ExpiryOf(records[device]);
      var registry := w.service.registry.(records := records[device := R.Expired(records[device])]);
      assert Mutates(SliceOf(w, device), mutation) && R.Coherent(registry) by {
        assert SliceOk(SliceOf(w, device));
        R.ExpiryAdvances(records[device], now, timeout);
        R.SameRolesExact(w.service.registry, device, R.Expired(records[device]));
      }
      assert mutation.record.device == device;
      hide SlicesOk, Moves, R.Coherent, ResultsOk, StoredInOrder, Mutates, V.Mark;
      MarkedKeeps(w, t, registry, mutation, at);
    }
  }

  // ---------------------------------------------------------------- submitting writes

  /** What a submission leaves alone, and what it counts. */
  lemma AcceptedFields(s: V.Service, write: DeviceWrite, at: Time)
    requires s.worker.accepting
    ensures var t := V.SubmitWrite(s, write, at).0;
            && t.registry == s.registry && t.pending == s.pending
            && t.submitted == s.submitted[write.record.device := write]
            && t.outstanding == s.outstanding + (if write.record.device in s.submitted then 0 else 1)
  {
    hide W.MergeWrite;
  }

  lemma RefusedFields(s: V.Service, write: DeviceWrite, at: Time)
    requires !s.worker.accepting
    ensures var t := V.SubmitWrite(s, write, at).0;
            && t.registry == s.registry && t.pending == s.pending
            && t.submitted == s.submitted && t.outstanding == s.outstanding
  {
    hide S.Restore;
  }

  lemma SubmissionCounts(w: World, t: World, dirty: S.Entries, write: DeviceWrite, at: Time)
    requires KeysOk(w) && Accounted(w)
    requires t == w.(service := V.SubmitWrite(w.service.(dirty := dirty), write, at).0)
    ensures KeysOk(t) && Accounted(t) && t.service.registry == w.service.registry
  {
    if w.service.worker.accepting {
      AcceptedFields(w.service.(dirty := dirty), write, at);
    } else {
      RefusedFields(w.service.(dirty := dirty), write, at);
    }
    hide V.SubmitWrite;
  }

  lemma AcceptedSlices(w: World, t: World, dirty: S.Entries, write: DeviceWrite, at: Time)
    requires w.service.worker.accepting
    requires t == w.(service := V.SubmitWrite(w.service.(dirty := dirty), write, at).0)
    requires forall d :: d != write.record.device ==> Lookup(dirty, d) == Lookup(w.service.dirty, d)
    ensures forall d :: d != write.record.device ==> SliceOf(t, d) == SliceOf(w, d)
    ensures var s := SliceOf(w, write.record.device);
            SliceOf(t, write.record.device) ==
              s.(queued := Some(Queue(s.queued, write)), entry := Lookup(dirty, write.record.device))
  {
  }

  lemma RefusedSlices(w: World, t: World, dirty: S.Entries, write: DeviceWrite, at: Time)
    requires !w.service.worker.accepting && write.record.device in w.service.registry.records
    requires t == w.(service := V.SubmitWrite(w.service.(dirty := dirty), write, at).0)
    requires forall d :: d != write.record.device ==> Lookup(dirty, d) == Lookup(w.service.dirty, d)
    ensures forall d :: d != write.record.device ==> SliceOf(t, d) == SliceOf(w, d)
    ensures var s := SliceOf(w, write.record.device);
            SliceOf(t, write.record.device) ==
              s.(entry := Some(S.RestoreEntry(Lookup(dirty, write.record.device), write, at)),
                 degraded := Some(S.Max(s.registered.value.revision, 0)))
  {
    hide S.RestoreEntry;
  }

  lemma DispatchSlices(w: World, device: DeviceId, at: Time)
    requires R.Coherent(w.service.registry) && SlicesOk(w) && Enabled(w, Dispatch(device, at))
    ensures SlicesOk(Next(w, Dispatch(device, at))) && Moves(w, Next(w, Dispatch(device, at)))
  {
    var t := Next(w, Dispatch(device, at));
    var s := SliceOf(w, device);
    assert SliceOk(s);
    var entry := w.service.dirty[device];
    var write := S.WriteOf(entry);
    var dirty := S.TakeOne(w.service.dirty, device);
    EntryFacts(s);
    assert write.record.device == device by {
      RegisteredUnder(w, device);
    }
    hide SliceOk, Advances, S.RestoreEntry, V.SubmitWrite, R.Coherent;
    if w.service.worker.accepting {
      AcceptedSlices(w, t, dirty, write, at);
      DispatchedOk(s);
    } else {
      RefusedSlices(w, t, dirty, write, at);
      TakenEntry(entry);
      RestoredOk(s, write, Some(S.Dispatched(entry)), at, S.Max(s.registered.value.revision, 0));
    }
    OneSlice(w, t, device);
  }

  lemma EntryFacts(s: Slice)
    requires SliceOk(s) && s.entry.Some?
    ensures s.registered.Some? && WriteOk(s, S.WriteOf(s.entry.value))
  {
  }

  lemma RegisteredUnder(w: World, device: DeviceId)
    requires SlicesOk(w) && device in w.service.dirty
    ensures device in w.service.registry.records
    ensures w.service.dirty[device].record.device == w.service.registry.records[device].device
  {
    var s := SliceOf(w, device);
    assert SliceOk(s);
    EntryFacts(s);
  }

  lemma TakenEntry(entry: S.Entry)
    ensures TakenFor(Some(S.Dispatched(entry)), Some(entry), S.WriteOf(entry))
  {
    S.DispatchedFields(entry);
    WriteOfFlags(entry);
  }

  lemma DispatchKeeps(w: World, device: DeviceId, at: Time)
    requires Inv(w) && Enabled(w, Dispatch(device, at))
    ensures Inv(Next(w, Dispatch(device, at)))
  {
    var t := Next(w, Dispatch(device, at));
    DispatchSlices(w, device, at);
    hide SlicesOk, Moves, R.Coherent, ResultsOk, StoredInOrder, V.SubmitWrite, KeysOk, Accounted;
    SubmissionCounts(w, t, S.TakeOne(w.service.dirty, device), S.WriteOf(w.service.dirty[device]), at);
    Keeps(w, t);
  }

  lemma RecoverSlices(w: World, device: DeviceId, at: Time)
    requires R.Coherent(w.service.registry) && SlicesOk(w) && device in w.service.degraded && device in w.service.registry.records
    requires !w.service.unavailable
    ensures SlicesOk(Next(w, Recover(device, at))) && Moves(w, Next(w, Recover(device, at)))
  {
    var t := Next(w, Recover(device, at));
    var s := SliceOf(w, device);
    assert SliceOk(s);
    var write := V.FullWrite(w.service.registry.records[device]);
    assert WriteOk(s, write);
    assert write.record.device == device;
    hide SliceOk, WriteOk, Advances, S.RestoreEntry, V.SubmitWrite, R.Coherent;
    assert w.service.(dirty := w.service.dirty) == w.service;
    if w.service.worker.accepting {
      AcceptedSlices(w, t, w.service.dirty, write, at);
      FullQueuedOk(s, write);
      assert s.(queued := Some(Queue(s.queued, write)), entry := s.entry) == s.(queued := Some(Queue(s.queued, write)));
    } else {
      RefusedSlices(w, t, w.service.dirty, write, at);
      RestoredOk(s, write, s.entry, at, S.Max(s.registered.value.revision, 0));
    }
    OneSlice(w, t, device);
  }

  lemma RecoverKeeps(w: World, device: DeviceId, at: Time)
    requires Inv(w) && Enabled(w, Recover(device, at))
    ensures Inv(Next(w, Recover(device, at)))
  {
    var t := Next(w, Recover(device, at));
    if device in w.service.registry.records {
      RecoverSlices(w, device, at);
      hide SlicesOk, Moves, R.Coherent, ResultsOk, StoredInOrder, V.SubmitWrite, KeysOk, Accounted;
      assert w.service.(dirty := w.service.dirty) == w.service;
      SubmissionCounts(w, t, w.service.dirty, V.FullWrite(w.service.registry.records[device]), at);
      Keeps(w, t);
    }
  }

  lemma SubmittedGrows(pending: map<DeviceId, V.Pending>, device: DeviceId, candidate: V.Pending)
    requires device in pending && !pending[device].submitted
    ensures |V.SubmittedIn(pending[device := candidate])| == |V.SubmittedIn(pending)| + (if candidate.submitted then 1 else 0)
  {
    assert V.SubmittedIn(pending[device := candidate]) ==
           if candidate.submitted then V.SubmittedIn(pending) + {device} else V.SubmittedIn(pending);
  }

  lemma ProvideCounts(s: V.Service, device: DeviceId)
    requires !s.unavailable && device in s.pending && !s.pending[device].submitted
    ensures var t := V.SubmitPending(s, device);
            && t.pending.Keys == s.pending.Keys
            && t.outstanding - |V.SubmittedIn(t.pending)| == s.outstanding - |V.SubmittedIn(s.pending)|
            && (forall d :: d in t.pending ==> t.pending[d].registration == s.pending[d].registration)
            && t == s.(pending := t.pending, outstanding := t.outstanding, worker := t.worker)
            && t.worker == s.worker.(provisions := t.worker.provisions)
  {
    var candidate := s.pending[device];
    var accepted := W.SubmitProvision(s.worker, candidate.registration, candidate.receivedAt).1;
    SubmittedGrows(s.pending, device, candidate.(submitted := accepted));
    hide V.SubmittedIn;
  }

  lemma ProvideKeeps(w: World, device: DeviceId)
    requires Inv(w)
    ensures Inv(Next(w, Provide(device)))
  {
    var t := Next(w, Provide(device));
    if !w.service.unavailable && device in w.service.pending && !w.service.pending[device].submitted {
      ProvideCounts(w.service, device);
    }
    hide SlicesOk, R.Coherent, ResultsOk, StoredInOrder, V.SubmittedIn, W.SubmitProvision;
    UnseenKeeps(w, t);
  }

  // ---------------------------------------------------------------- database results

  lemma DroppedResult(w: World)
    requires Inv(w) && |w.results| > 0
    ensures Inv(w.(results := w.results[1..])) && ResultOk(w.(results := w.results[1..]), w.results[0])
  {
    var t := w.(results := w.results[1..]);
    hide R.Coherent, KeysOk, Accounted, StoredInOrder, SliceOk, Advances;
    forall d ensures SliceOf(t, d) == SliceOf(w, d) {
    }
    SameSlices(w, t);
    ResultStays(w, t, w.results[0]);
    forall k | 0 <= k < |t.results| ensures ResultOk(t, t.results[k]) {
      ResultStays(w, t, w.results[k + 1]);
    }
    assert KeysOk(t) && Accounted(t) && StoredInOrder(t) by {
      DroppedRest(w);
    }
  }

  lemma DroppedRest(w: World)
    requires KeysOk(w) && Accounted(w) && StoredInOrder(w) && |w.results| > 0
    ensures var t := w.(results := w.results[1..]);
            KeysOk(t) && Accounted(t) && StoredInOrder(t)
  {
  }

  /** Only the degraded mark of one device, and device work the slices do not show, changed. */
  predicate OnlyDegrades(w: World, t: World, device: DeviceId) {
    && t == w.(service := t.service)
    && t.service.registry == w.service.registry && t.service.dirty == w.service.dirty
    && t.service.worker == w.service.worker
    && device in w.service.registry.records
    && (t.service.degraded == w.service.degraded - {device} ||
        (device in t.service.degraded &&
         t.service.degraded == w.service.degraded[device := t.service.degraded[device]] &&
         t.service.degraded[device] >= w.service.registry.records[device].revision))
  }

  lemma DegradeSlices(w: World, t: World, device: DeviceId)
    requires SlicesOk(w) && OnlyDegrades(w, t, device)
    ensures SlicesOk(t) && Moves(w, t)
  {
    var s := SliceOf(w, device);
    assert SliceOk(s);
    hide SliceOk, Advances;
    var degraded := Lookup(t.service.degraded, device);
    assert SliceOf(t, device) == s.(degraded := degraded);
    DegradedOk(s, degraded);
    forall d | d != device ensures SliceOf(t, d) == SliceOf(w, d) {
    }
    OneSlice(w, t, device);
  }

  lemma DegradeKeeps(w: World, t: World, device: DeviceId)
    requires Inv(w) && KeysOk(t) && Accounted(t) && OnlyDegrades(w, t, device)
    ensures Inv(t) && Moves(w, t)
  {
    hide SlicesOk, Moves, R.Coherent, KeysOk, Accounted, ResultsOk, StoredInOrder;
    DegradeSlices(w, t, device);
    Keeps(w, t);
  }

  lemma NoneSubmitted()
    ensures V.SubmittedIn(map[]) == {}
  {
  }

  /** Fewer pending and submitted entries, with the count lowered by as many. */
  lemma FewerKeeps(w: World, t: World)
    requires KeysOk(w) && Accounted(w)
    requires t.service.registry == w.service.registry && t.rows == w.rows && t.refusals == w.refusals
    requires forall d :: d in t.service.pending ==> d in w.service.pending && t.service.pending[d] == w.service.pending[d]
    requires forall d :: d in t.service.submitted ==>
               d in w.service.submitted && t.service.submitted[d] == w.service.submitted[d]
    requires t.service.outstanding - |t.service.submitted| - |V.SubmittedIn(t.service.pending)| ==
             w.service.outstanding - |w.service.submitted| - |V.SubmittedIn(w.service.pending)|
    ensures KeysOk(t) && Accounted(t)
  {
    hide V.SubmittedIn;
  }

  lemma UnavailableKeeps(w: World, device: DeviceId, revision: nat)
    requires Inv(w)
    ensures Inv(w.(service := V.HandleUnavailable(w.service, device, revision)))
  {
    var t := w.(service := V.HandleUnavailable(w.service, device, revision));
    NoneSubmitted();
    hide SlicesOk, R.Coherent, ResultsOk, StoredInOrder, Moves, V.SubmittedIn;
    FewerKeeps(w, t);
    hide KeysOk, Accounted;
    if device in w.service.registry.records {
      DegradeKeeps(w, t, device);
    } else {
      UnseenKeeps(w, t);
    }
  }

  lemma FailureCounts(s: V.Service, failed: DeviceId)
    ensures var finished := (if failed in V.SubmittedIn(s.pending) then 1 else 0) + (if failed in s.submitted then 1 else 0);
            |s.submitted - {failed}| + |V.SubmittedIn(s.pending - {failed})| ==
            |s.submitted| + |V.SubmittedIn(s.pending)| - finished
  {
    assert V.SubmittedIn(s.pending - {failed}) == V.SubmittedIn(s.pending) - {failed};
    SizeAfterRemoval(s.submitted, failed);
  }

  lemma FailureKeeps(w: World, failed: Option<DeviceId>, revision: nat)
    requires Inv(w)
    ensures Inv(w.(service := V.HandlePermanentFailure(w.service, failed, revision)))
  {
    var t := w.(service := V.HandlePermanentFailure(w.service, failed, revision));
    NoneSubmitted();
    hide SlicesOk, R.Coherent, ResultsOk, StoredInOrder, Moves;
    if failed.None? {
      FewerKeeps(w, t);
      hide KeysOk, Accounted, V.SubmittedIn;
      UnseenKeeps(w, t);
    } else {
      FailureCounts(w.service, failed.value);
      hide V.SubmittedIn;
      FewerKeeps(w, t);
      hide KeysOk, Accounted;
      if failed.value in w.service.registry.records {
        DegradeKeeps(w, t, failed.value);
      } else {
        UnseenKeeps(w, t);
      }
    }
  }

  lemma SettledSlices(w: World, device: DeviceId, revision: nat)
    requires SlicesOk(w) && device in w.service.submitted && revision >= w.service.submitted[device].revision
    requires w.service.submitted[device].record.device == device
    ensures var t := w.(service := V.Settle(w.service, device, revision));
            SlicesOk(t) && Moves(w, t)
  {
    var t := w.(service := V.Settle(w.service, device, revision));
    hide SliceOk, Advances, S.CompleteEntry, S.HasWork;
    assert SliceOk(SliceOf(w, device));
    if device in w.service.dirty {
      CompletedOk(SliceOf(w, device), w.service.submitted[device]);
    } else {
      StandsStill(SliceOf(w, device));
    }
    forall d | d != device ensures SliceOf(t, d) == SliceOf(w, d) {
    }
    OneSlice(w, t, device);
  }

  lemma SettledKeeps(w: World, device: DeviceId, revision: nat)
    requires Inv(w)
    ensures Inv(w.(service := V.Settle(w.service, device, revision)))
  {
    if device in w.service.submitted && revision >= w.service.submitted[device].revision {
      var t := w.(service := V.Settle(w.service, device, revision));
      SettledSlices(w, device, revision);
      SizeAfterRemoval(w.service.submitted, device);
      hide SlicesOk, Moves, R.Coherent, ResultsOk, StoredInOrder, V.SubmittedIn, S.Complete;
      FewerKeeps(w, t);
      hide KeysOk, Accounted;
      Keeps(w, t);
    }
  }

  lemma SettleKeepsDegraded(s: V.Service, device: DeviceId, revision: nat)
    ensures var settled := V.Settle(s, device, revision);
            settled.degraded == s.degraded && settled.registry == s.registry && settled.events == s.events
  {
    hide S.Complete;
  }

  lemma CompletionSplits(s: V.Service, device: DeviceId, revision: nat)
    ensures var settled := V.Settle(s, device, revision);
            var t := V.HandleCompleted(s, device, revision);
            if device in s.degraded && revision >= s.degraded[device]
            then t == settled.(degraded := settled.degraded - {device}, events := t.events)
            else t == settled
  {
    SettleKeepsDegraded(s, device, revision);
    hide V.Settle;
  }

  lemma DegradedRegistered(w: World, device: DeviceId)
    requires SlicesOk(w) && device in w.service.degraded
    ensures device in w.service.registry.records
    ensures w.service.degraded[device] >= w.service.registry.records[device].revision
  {
    assert SliceOk(SliceOf(w, device));
  }

  lemma CompletionKeeps(w: World, device: DeviceId, revision: nat)
    requires Inv(w)
    ensures Inv(w.(service := V.HandleCompleted(w.service, device, revision)))
  {
    var s := w.service;
    var t := w.(service := V.HandleCompleted(s, device, revision));
    CompletionSplits(s, device, revision);
    hide SlicesOk, R.Coherent, ResultsOk, StoredInOrder, Moves, V.HandleCompleted, KeysOk, Accounted;
    var settled := w.(service := V.Settle(s, device, revision));
    SettledKeeps(w, device, revision);
    SettleKeepsDegraded(s, device, revision);
    if device in s.degraded && revision >= s.degraded[device] {
      DegradedRegistered(settled, device);
      FewerKeeps(settled, t);
      DegradeKeeps(settled, t, device);
    }
  }

  /** The service after a provisioned record entered the directory. */
  function Added(s: V.Service, device: DeviceId, registry: R.Registry): V.Service
    requires device in s.pending
  {
    s.(registry := registry, pending := s.pending - {device},
       outstanding := if s.pending[device].submitted then s.outstanding - 1 else s.outstanding)
  }

  lemma PendingShrinks(pending: map<DeviceId, V.Pending>, device: DeviceId)
    requires device in pending
    ensures |V.SubmittedIn(pending - {device})| == |V.SubmittedIn(pending)| - (if pending[device].submitted then 1 else 0)
  {
    assert V.SubmittedIn(pending - {device}) == V.SubmittedIn(pending) - {device};
  }

  lemma AddedSlices(w: World, device: DeviceId, record: DeviceRecord, registry: R.Registry)
    requires SlicesOk(w) && device in w.service.pending && device !in w.service.registry.records
    requires device in w.rows && w.rows[device].record == record && record.device == device
    requires R.AddProvisioned(w.service.registry, record) == Success(registry)
    ensures var t := w.(service := Added(w.service, device, registry));
            SlicesOk(t) && Moves(w, t)
  {
    var t := w.(service := Added(w.service, device, registry));
    var s := SliceOf(w, device);
    hide SliceOk, Advances;
    assert registry.records == w.service.registry.records[device := record];
    assert SliceOk(s);
    AddedOk(s, record);
    assert SliceOf(t, device) == s.(registered := Some(record));
    forall d | d != device ensures SliceOf(t, d) == SliceOf(w, d) {
    }
    OneSlice(w, t, device);
  }

  lemma AddedKeeps(w: World, device: DeviceId, record: DeviceRecord, registry: R.Registry)
    requires Inv(w) && device in w.service.pending
    requires ResultOk(w, DatabaseResult.Provisioned(device, record))
    requires R.AddProvisioned(w.service.registry, record) == Success(registry)
    ensures Inv(w.(service := Added(w.service, device, registry)))
  {
    var t := w.(service := Added(w.service, device, registry));
    R.LoadOneKeeps(w.service.registry, record);
    PendingShrinks(w.service.pending, device);
    hide SlicesOk, Moves, R.Coherent, ResultsOk, StoredInOrder, V.SubmittedIn;
    AddedSlices(w, device, record, registry);
    assert registry.records == w.service.registry.records[device := record];
    assert KeysOk(t) && Accounted(t);
    hide KeysOk, Accounted;
    Keeps(w, t);
  }

  lemma AddedThenRegistered(w: World, t: World, device: DeviceId, registry: R.Registry, candidate: V.Pending, at: Time)
    requires Inv(w) && w.service.registry == registry && candidate.registration.device !in w.startup
    requires var result := R.ApplyRegistration(registry, candidate.registration, candidate.receivedAt);
             t == After(w, if result.Success? then V.Mark(w.service.(registry := result.value.0), result.value.1, at)
                           else w.service, Applied(result))
    ensures Inv(t)
  {
    var result := R.ApplyRegistration(registry, candidate.registration, candidate.receivedAt);
    hide SlicesOk, Moves, R.Coherent, ResultsOk, StoredInOrder, V.Mark, R.ApplyRegistration, KeysOk, Accounted, Mutates;
    if result.Success? {
      RegistrationMutates(w, candidate.registration, candidate.receivedAt);
      MarkedKeeps(w, t, result.value.0, result.value.1, at);
    }
  }

  lemma RefusedKeeps(w: World, count: nat)
    requires Inv(w)
    ensures Inv(w.(service := w.service.(outstanding := w.service.outstanding - count), refusals := w.refusals + count))
  {
    var t := w.(service := w.service.(outstanding := w.service.outstanding - count), refusals := w.refusals + count);
    hide SlicesOk, R.Coherent, ResultsOk, StoredInOrder;
    UnseenKeeps(w, t);
  }

  lemma ProvisionRefused(w: World, at: Time)
    requires Inv(w) && |w.results| > 0 && w.results[0].Provisioned? && w.results[0].device in w.service.pending
    requires R.AddProvisioned(w.service.registry, w.results[0].record).Failure?
    ensures Inv(HandledNext(w, at))
  {
    var candidate := w.service.pending[w.results[0].device];
    var taken := w.(results := w.results[1..]);
    hide Inv, R.AddProvisioned;
    DroppedResult(w);
    RefusedKeeps(taken, if candidate.submitted then 1 else 0);
  }

  /** A waiting device is not in the directory, so nothing of it is left from start-up. */
  lemma WaitingIsNew(w: World, device: DeviceId)
    requires Inv(w) && device in w.service.pending
    ensures w.service.pending[device].registration.device == device && device !in w.startup
  {
    assert SliceOk(SliceOf(w, device));
  }

  lemma ProvisionAdded(w: World, at: Time)
    requires Inv(w) && |w.results| > 0 && w.results[0].Provisioned? && w.results[0].device in w.service.pending
    requires R.AddProvisioned(w.service.registry, w.results[0].record).Success?
    ensures Inv(HandledNext(w, at))
  {
    var device := w.results[0].device;
    var taken := w.(results := w.results[1..]);
    var registry := R.AddProvisioned(w.service.registry, w.results[0].record).value;
    hide Inv, R.AddProvisioned, R.ApplyRegistration, V.Mark, ResultOk;
    DroppedResult(w);
    WaitingIsNew(w, device);
    AddedKeeps(taken, device, w.results[0].record, registry);
    AddedThenRegistered(taken.(service := Added(w.service, device, registry)), HandledNext(w, at), device, registry,
                        w.service.pending[device], at);
  }

  lemma ProvisionedKeeps(w: World, at: Time)
    requires Inv(w) && |w.results| > 0 && w.results[0].Provisioned?
    ensures Inv(HandledNext(w, at))
  {
    hide Inv, R.AddProvisioned, R.ApplyRegistration, V.Mark;
    if w.results[0].device in w.service.pending {
      if R.AddProvisioned(w.service.registry, w.results[0].record).Failure? {
        ProvisionRefused(w, at);
      } else {
        ProvisionAdded(w, at);
      }
    } else {
      DroppedResult(w);
    }
  }

  lemma HandleNextKeeps(w: World, at: Time)
    requires Inv(w) && |w.results| > 0
    ensures Inv(HandledNext(w, at))
  {
    var taken := w.(results := w.results[1..]);
    DroppedResult(w);
    hide Inv;
    match w.results[0]
    case Provisioned(_, _) => ProvisionedKeeps(w, at);
    case WriteCompleted(device, revision) =>
      hide V.HandleCompleted;
      CompletionKeeps(taken, device, revision);
    case DatabaseUnavailable(device, revision) =>
      hide V.HandleUnavailable;
      UnavailableKeeps(taken, device, revision);
    case PermanentFailure(failed, revision) =>
      hide V.HandlePermanentFailure;
      FailureKeeps(taken, failed, revision);
    case DatabaseRecovered => RecoveredKeeps(taken);
  }

  lemma RecoveredKeeps(w: World)
    requires Inv(w)
    ensures Inv(w.(service := w.service.(unavailable := false)))
  {
    var t := w.(service := w.service.(unavailable := false));
    hide SlicesOk, R.Coherent, ResultsOk, StoredInOrder;
    UnseenKeeps(w, t);
  }

  lemma CancelSlices(w: World)
    requires SlicesOk(w)
    ensures SlicesOk(Next(w, CancelWork)) && Moves(w, Next(w, CancelWork))
  {
    var t := Next(w, CancelWork);
    hide SliceOk, Advances;
    forall d ensures SliceOk(SliceOf(t, d)) && Advances(SliceOf(w, d), SliceOf(t, d)) {
      assert SliceOk(SliceOf(w, d));
      if d in w.service.dirty {
        EntryFacts(SliceOf(w, d));
        LostOk(SliceOf(w, d), SliceOf(t, d));
      } else {
        StandsStill(SliceOf(w, d));
      }
    }
  }

  lemma CancelCounts(w: World)
    requires KeysOk(w)
    ensures KeysOk(Next(w, CancelWork)) && Accounted(Next(w, CancelWork))
  {
    assert V.SubmittedIn(Next(w, CancelWork).service.pending) == {};
  }

  lemma CancelKeeps(w: World)
    requires Inv(w)
    ensures Inv(Next(w, CancelWork))
  {
    var t := Next(w, CancelWork);
    CancelSlices(w);
    CancelCounts(w);
    hide SlicesOk, Moves, R.Coherent, ResultsOk, StoredInOrder, KeysOk, Accounted;
    Keeps(w, t);
  }

  // ---------------------------------------------------------------- start-up writes and the database thread

  lemma StartupSlices(w: World, device: DeviceId)
    requires SlicesOk(w) && device in w.startup
    requires R.Coherent(w.service.registry)
    ensures SlicesOk(QueuedStartup(w, device)) && Moves(w, QueuedStartup(w, device))
  {
    var t := QueuedStartup(w, device);
    var s := SliceOf(w, device);
    assert SliceOk(s);
    assert s.startup.value.record.device == device;
    hide SliceOk, Advances, R.Coherent;
    if w.service.worker.accepting {
      assert SliceOf(t, device) == StartupQueued(s);
      StartupQueuedOk(s);
    } else {
      LostOk(s, SliceOf(t, device));
    }
    forall d | d != device ensures SliceOf(t, d) == SliceOf(w, d) {
    }
    OneSlice(w, t, device);
  }

  lemma StartupKeeps(w: World, device: DeviceId)
    requires Inv(w) && Enabled(w, QueueStartup(device))
    ensures Inv(QueuedStartup(w, device))
  {
    var t := QueuedStartup(w, device);
    StartupSlices(w, device);
    hide SlicesOk, Moves, R.Coherent, ResultsOk, StoredInOrder;
    FewerKeeps(w, t);
    hide KeysOk, Accounted;
    Keeps(w, t);
  }

  lemma QueuedUnder(w: World, device: DeviceId)
    requires SlicesOk(w) && R.Coherent(w.service.registry) && device in w.service.worker.writes
    ensures w.service.worker.writes[device].record.device == device && device in w.service.registry.records
  {
    assert SliceOk(SliceOf(w, device));
  }

  lemma TakeWriteKeeps(w: World, device: DeviceId)
    requires Inv(w) && Enabled(w, TakeWrite(device))
    ensures Inv(Next(w, TakeWrite(device)))
  {
    var t := Next(w, TakeWrite(device));
    QueuedUnder(w, device);
    TakeWriteSlices(w, device);
    hide SlicesOk, Moves, R.Coherent, ResultsOk, StoredInOrder;
    FewerKeeps(w, t);
    hide KeysOk, Accounted;
    Keeps(w, t);
  }

  lemma TakeWriteSlices(w: World, device: DeviceId)
    requires SlicesOk(w) && Enabled(w, TakeWrite(device)) && w.service.worker.writes[device].record.device == device
    ensures SlicesOk(Next(w, TakeWrite(device))) && Moves(w, Next(w, TakeWrite(device)))
  {
    var t := Next(w, TakeWrite(device));
    var s := SliceOf(w, device);
    hide SliceOk, Advances;
    assert SliceOk(s);
    assert SliceOf(t, device) == s.(executing := s.queued, queued := None);
    TakenOk(s);
    forall d | d != device ensures SliceOf(t, d) == SliceOf(w, d) {
    }
    OneSlice(w, t, device);
  }

  /** The slice of the device whose write ended. */
  function Ended(s: Slice, written: W.Answer<()>, committed: bool): Slice
    requires s.row.Some? && s.executing.Some?
  {
    var stored := if committed then Written(s) else s;
    match written
    case Done(_) => stored.(executing := None)
    case Refused(Unavailable) => stored.(executing := None, queued := Some(Queue(s.queued, s.executing.value)))
    case Refused(Permanent) => stored.(executing := None, lost := true)
  }

  lemma EndedOk(s: Slice, written: W.Answer<()>, committed: bool)
    requires SliceOk(s) && s.executing.Some? && (written.Done? ==> committed)
    ensures s.registered.Some? && s.row.Some?
    ensures SliceOk(Ended(s, written, committed)) && Advances(s, Ended(s, written, committed))
    ensures written.Done? ==> CompletionOk(Ended(s, written, committed), s.executing.value.revision)
    ensures s.row.value.newest <= s.executing.value.revision
    ensures committed ==> Ended(s, written, committed).row.value.newest == s.executing.value.revision
  {
    ExecutingFacts(s);
    var stored := if committed then Written(s) else s;
    if committed {
      WrittenOk(s);
    } else {
      StandsStill(s);
    }
    hide SliceOk, Advances, Stored;
    match written
    case Done(_) =>
      FinishedOk(stored);
      AdvancesTogether(s, stored, Ended(s, written, committed));
    case Refused(Unavailable) =>
      RequeuedOk(stored);
      AdvancesTogether(s, stored, Ended(s, written, committed));
    case Refused(Permanent) =>
      LostOk(stored, Ended(s, written, committed));
      AdvancesTogether(s, stored, Ended(s, written, committed));
  }

  lemma ExecutingFacts(s: Slice)
    requires SliceOk(s) && s.executing.Some?
    ensures s.registered.Some? && s.row.Some? && s.row.value.newest <= s.executing.value.revision
    ensures s.executing.value.revision <= s.registered.value.revision && WriteOk(s, s.executing.value)
  {
  }

  lemma AdvancesTogether(a: Slice, b: Slice, c: Slice)
    requires Advances(a, b) && Advances(b, c)
    requires a.registered == b.registered
    ensures Advances(a, c)
  {
  }

  lemma FinishWriteSlices(w: World, written: W.Answer<()>, committed: bool)
    requires SlicesOk(w) && w.job.Writing? && (written.Done? ==> committed)
    ensures var device := w.job.write.record.device;
            var t := FinishedWrite(w, written, committed);
            && SlicesOk(t) && Moves(w, t) && device in w.rows
            && w.rows[device].newest <= w.job.write.revision
            && (committed ==> t.rows[device].newest == w.job.write.revision)
            && (written.Done? ==> CompletionOk(SliceOf(t, device), w.job.write.revision))
  {
    var device := w.job.write.record.device;
    var t := FinishedWrite(w, written, committed);
    var s := SliceOf(w, device);
    hide SliceOk, Advances, Stored, CompletionOk;
    assert SliceOk(s);
    EndedOk(s, written, committed);
    FinishedSlice(w, written, committed);
    FinishedOthers(w, written, committed);
    hide FinishedWrite, Ended;
    OneSlice(w, t, device);
  }

  lemma FinishedSlice(w: World, written: W.Answer<()>, committed: bool)
    requires w.job.Writing? && w.job.write.record.device in w.rows
    ensures var device := w.job.write.record.device;
            SliceOf(FinishedWrite(w, written, committed), device) == Ended(SliceOf(w, device), written, committed)
  {
    hide Stored;
  }

  lemma FinishedOthers(w: World, written: W.Answer<()>, committed: bool)
    requires w.job.Writing?
    ensures forall d :: d != w.job.write.record.device ==>
              SliceOf(FinishedWrite(w, written, committed), d) == SliceOf(w, d)
  {
    hide Stored;
  }

  lemma StoredGrows(w: World, t: World, device: DeviceId, revision: nat)
    requires StoredInOrder(w) && Moves(w, t) && t.stored == w.stored + [(device, revision)]
    requires device in w.rows && device in t.rows && w.rows[device].newest <= revision == t.rows[device].newest
    ensures StoredInOrder(t)
  {
    hide Advances;
    forall k | 0 <= k < |w.stored|
      ensures t.stored[k].0 in t.rows && t.stored[k].1 <= t.rows[t.stored[k].0].newest
    {
      RowAdvances(w, t, t.stored[k].0);
    }
  }

  lemma RowsStay(w: World, t: World)
    requires KeysOk(w) && Accounted(w) && t.service.pending == w.service.pending && t.service.submitted == w.service.submitted
    requires t.service.registry == w.service.registry && t.service.outstanding == w.service.outstanding
    requires t.refusals == w.refusals
    requires forall d :: d in t.rows ==> t.rows[d].record.device == d && t.rows[d].record.revision == 0
    ensures KeysOk(t) && Accounted(t)
  {
  }

  lemma FinishWriteKeeps(w: World, written: W.Answer<()>, committed: bool)
    requires Inv(w) && w.job.Writing? && (written.Done? ==> committed)
    ensures Inv(FinishedWrite(w, written, committed))
  {
    var t := FinishedWrite(w, written, committed);
    var device := w.job.write.record.device;
    var result := W.FinishWrite(w.service.worker, w.job.write, written).1;
    FinishWriteSlices(w, written, committed);
    RowsStay(w, t);
    hide SlicesOk, Moves, R.Coherent, KeysOk, Accounted, CompletionOk, Stored;
    assert ResultOk(t, result);
    ResultsGrow(w, t, result);
    if committed {
      StoredGrows(w, t, device, w.job.write.revision);
    } else {
      StoredStays(w, t);
    }
  }

  lemma CreatedOk(s: Slice, row: Row)
    requires SliceOk(s) && s.row.None? && row.written == UNFLAGGED && row.newest == 0
    ensures s.registered.None? && SliceOk(s.(row := Some(row))) && Advances(s, s.(row := Some(row)))
  {
  }

  /** The only thing that may happen to the rows is a new one for the device, when it had none. */
  lemma FinishProvisionSlices(w: World, built: W.Answer<()>, committed: bool, schoolId: int)
    requires SlicesOk(w) && w.job.Building?
    ensures var t := FinishedProvision(w, built, committed, schoolId);
            SlicesOk(t) && Moves(w, t)
  {
    var t := FinishedProvision(w, built, committed, schoolId);
    var device := w.job.provision.registration.device;
    var s := SliceOf(w, device);
    hide SliceOk, Advances;
    assert SliceOk(s);
    if committed && device !in w.rows {
      CreatedOk(s, t.rows[device]);
      assert SliceOf(t, device) == s.(row := Some(t.rows[device]));
    } else {
      StandsStill(s);
      assert SliceOf(t, device) == s;
    }
    forall d | d != device ensures SliceOf(t, d) == SliceOf(w, d) {
    }
    OneSlice(w, t, device);
  }

  lemma FinishProvisionKeeps(w: World, built: W.Answer<()>, committed: bool, schoolId: int)
    requires Inv(w) && w.job.Building? && (built.Done? ==> committed)
    ensures Inv(FinishedProvision(w, built, committed, schoolId))
  {
    var t := FinishedProvision(w, built, committed, schoolId);
    FinishProvisionSlices(w, built, committed, schoolId);
    RowsStay(w, t);
    hide SlicesOk, Moves, R.Coherent, Accounted, CompletionOk;
    var result := t.results[|w.results|];
    assert t.results == w.results + [result];
    assert ResultOk(t, result);
    hide KeysOk;
    ResultsGrow(w, t, result);
    StoredStays(w, t);
  }

  /** The migration check refused the database for good: the queue is dropped and nothing is accepted any more. */
  lemma StoppedOk(s: Slice, t: Slice)
    requires SliceOk(s) && t == s.(accepting := false, queued := None, lost := s.queued.Some? || s.lost)
    ensures SliceOk(t) && Advances(s, t)
  {
    var closed := s.(accepting := false);
    ClosedOk(s);
    if s.queued.Some? {
      QueuedFacts(s);
      hide SliceOk, Advances;
      LostOk(closed, t);
      AdvancesTogether(s, closed, t);
    } else {
      assert t == closed;
    }
  }

  lemma ReconnectSlices(w: World, connected: W.Answer<()>)
    requires SlicesOk(w) && w.service.worker.unavailable && w.job.Idle?
    ensures SlicesOk(Reconnected(w, connected)) && Moves(w, Reconnected(w, connected))
  {
    var t := Reconnected(w, connected);
    hide SliceOk, Advances;
    if connected == W.Refused(W.Permanent) {
      forall d ensures SliceOk(SliceOf(t, d)) && Advances(SliceOf(w, d), SliceOf(t, d)) {
        assert SliceOk(SliceOf(w, d));
        StoppedOk(SliceOf(w, d), SliceOf(t, d));
      }
    } else {
      SameSlices(w, t);
    }
  }

  lemma QueuedFacts(s: Slice)
    requires SliceOk(s) && s.queued.Some?
    ensures s.registered.Some?
  {
  }

  lemma ReconnectKeeps(w: World, connected: W.Answer<()>)
    requires Inv(w) && w.service.worker.unavailable && w.job.Idle?
    ensures Inv(Reconnected(w, connected))
  {
    var t := Reconnected(w, connected);
    ReconnectSlices(w, connected);
    FewerKeeps(w, t);
    hide SlicesOk, Moves, R.Coherent, Accounted, KeysOk;
    if t.results == w.results {
      ResultsStay(w, t);
    } else {
      ResultsGrow(w, t, t.results[|w.results|]);
    }
    StoredStays(w, t);
  }

  lemma CloseSlices(w: World)
    requires SlicesOk(w)
    ensures SlicesOk(Next(w, CloseWorker)) && Moves(w, Next(w, CloseWorker))
  {
    var t := Next(w, CloseWorker);
    hide SliceOk, Advances;
    forall d ensures SliceOk(SliceOf(t, d)) && Advances(SliceOf(w, d), SliceOf(t, d)) {
      assert SliceOk(SliceOf(w, d));
      ClosedOk(SliceOf(w, d));
    }
  }

  lemma CloseKeeps(w: World)
    requires Inv(w)
    ensures Inv(Next(w, CloseWorker))
  {
    var t := Next(w, CloseWorker);
    CloseSlices(w);
    hide SlicesOk, Moves, R.Coherent, ResultsOk, StoredInOrder;
    FewerKeeps(w, t);
    hide Accounted, KeysOk;
    Keeps(w, t);
  }

  /** Steps that touch nothing a slice shows. */
  lemma QuietKeeps(w: World, step: Step)
    requires Inv(w) && Enabled(w, step)
    requires step.SetDrain? || step.TakeProvision? || step.CommandOutage? || step.CommandWork?
    ensures Inv(Next(w, step))
  {
    var t := Next(w, step);
    FewerKeeps(w, t);
    hide SlicesOk, R.Coherent, Accounted, KeysOk, ResultsOk, StoredInOrder;
    UnseenKeeps(w, t);
  }

  lemma NextKeeps(w: World, step: Step)
    requires Inv(w) && Enabled(w, step)
    ensures Inv(Next(w, step))
  {
    hide Inv;
    match step
    case Register(registration, receivedAt, at) =>
      hide Next;
      RegisterKeeps(w, registration, receivedAt, at);
    case Tell(device, payload, deviceType, receivedAt, at) =>
      hide Next;
      TellKeeps(w, device, payload, deviceType, receivedAt, at);
    case Expire(device, now, timeout, at) =>
      hide Next;
      ExpireKeeps(w, device, now, timeout, at);
    case Provide(device) =>
      hide Next;
      ProvideKeeps(w, device);
    case Dispatch(device, at) =>
      hide Next;
      DispatchKeeps(w, device, at);
    case Recover(device, at) =>
      hide Next;
      RecoverKeeps(w, device, at);
    case HandleNext(at) =>
      hide HandledNext;
      HandleNextKeeps(w, at);
    case CancelWork =>
      hide Next;
      CancelKeeps(w);
    case QueueStartup(device) =>
      hide QueuedStartup;
      StartupKeeps(w, device);
    case TakeWrite(device) =>
      hide Next;
      TakeWriteKeeps(w, device);
    case FinishWrite(written, committed) =>
      hide FinishedWrite;
      FinishWriteKeeps(w, written, committed);
    case FinishProvision(built, committed, schoolId) =>
      hide FinishedProvision;
      FinishProvisionKeeps(w, built, committed, schoolId);
    case Reconnect(connected) =>
      hide Reconnected;
      ReconnectKeeps(w, connected);
    case CloseWorker =>
      hide Next;
      CloseKeeps(w);
    case _ =>
      hide Next;
      QuietKeeps(w, step);
  }
}
