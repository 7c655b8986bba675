/** What the device business thread does with each input, said on the input and the state alone. */
module DeviceOutcomes {
  import opened Wrappers
  import opened Collections
  import opened DeviceTypes
  import R = DeviceRegistry
  import S = DirtyState
  import W = PostgresWorker
  import V = DeviceService

  // ---------------------------------------------------------------- marking

  /** The cache entry of a device after a mutation was marked. */
  ghost predicate IsMarked(before: Option<S.Entry>, mutation: R.Mutation, at: Time, after: S.Entry) {
    var telemetry := mutation.reason.TelemetryReceived?;
    var revision := mutation.record.revision;
    && (forall g: Group :: after.At(g).dirty >= if before.Some? then before.value.At(g).dirty else 0)
    && (forall g: Group :: after.At(g).inFlight == if before.Some? then before.value.At(g).inFlight else 0)
    && (telemetry ==> after.telemetry.dirty >= revision)
    && (!telemetry ==> after.metadata.dirty >= revision)
    && (!telemetry || mutation.statusChanged ==> after.status.dirty >= revision)
    && (telemetry && before.Some? ==> after.metadata == before.value.metadata)
    && (telemetry && before.Some? && !mutation.statusChanged ==> after.status == before.value.status)
    && (!telemetry && before.Some? ==> after.telemetry == before.value.telemetry)
    && (after.urgency.Immediate? <==> !telemetry || (before.Some? && before.value.urgency.Immediate?))
    && (before.None? || before.value.revision <= revision ==> after.record == mutation.record && after.revision == revision)
    && (before.Some? && before.value.revision > revision ==>
          after.record == before.value.record && after.revision == before.value.revision)
    && (after.markedAt == if before.None? || (telemetry && before.value.telemetry.dirty == 0) then at
                          else before.value.markedAt)
  }

  /** One event, and the device's entry; registrations and expiries are urgent, telemetry is not. */
  lemma MarkOutcome(s: V.Service, mutation: R.Mutation, at: Time)
    ensures var after := V.Mark(s, mutation, at);
            var device := mutation.record.device;
            var degraded := s.unavailable || device in s.degraded;
            && after.events == s.events + [V.Event(mutation.record, mutation.reason, degraded)]
            && device in after.dirty && IsMarked(Lookup(s.dirty, device), mutation, at, after.dirty[device])
            && (forall d :: d != device ==> Lookup(after.dirty, d) == Lookup(s.dirty, d))
            && after == s.(events := after.events, dirty := after.dirty,
                           lastReason := s.lastReason[device := mutation.reason],
                           degraded := if degraded then s.degraded[device := mutation.record.revision] else s.degraded)
  {
    MarkedAs(Lookup(s.dirty, mutation.record.device), mutation, at);
    hide S.MarkEntry, IsMarked;
  }

  lemma MarkedAs(entry: Option<S.Entry>, mutation: R.Mutation, at: Time)
    ensures IsMarked(entry, mutation, at, S.MarkEntry(entry, V.WriteFor(mutation), at))
  {
  }

  // ---------------------------------------------------------------- failures

  /** A known device is degraded, at the newer of the two revisions, and that is announced. */
  ghost predicate Degrades(s: V.Service, after: V.Service, device: DeviceId, revision: nat) {
    if device !in s.registry.records then after == s
    else
      var record := s.registry.records[device];
      var newer := if record.revision > revision then record.revision else revision;
      var reason := if device in s.lastReason then s.lastReason[device] else R.TelemetryReceived;
      after == s.(degraded := s.degraded[device := newer], events := s.events + [V.Event(record, reason, true)])
  }

  lemma DegradeOutcome(s: V.Service, device: DeviceId, revision: nat)
    ensures Degrades(s, V.Degrade(s, device, revision), device, revision)
  {
  }

  lemma SubmittedAre(pending: map<DeviceId, V.Pending>, submitted: set<DeviceId>)
    requires forall d :: d in submitted <==> d in pending && pending[d].submitted
    ensures submitted == V.SubmittedIn(pending)
  {
  }

  /** An outage: registrations on their way are forgotten and no longer counted. */
  lemma UnavailableOutcome(s: V.Service, device: DeviceId, revision: nat, submitted: set<DeviceId>)
    requires forall d :: d in submitted <==> d in s.pending && s.pending[d].submitted
    ensures Degrades(s.(unavailable := true, pending := map[], outstanding := s.outstanding - |submitted|),
                     V.HandleUnavailable(s, device, revision), device, revision)
  {
    hide Degrades, V.Degrade, V.SubmittedIn;
    SubmittedAre(s.pending, submitted);
    var degraded := V.Degrade(s.(unavailable := true), device, revision);
    assert V.HandleUnavailable(s, device, revision) ==
           degraded.(pending := map[], outstanding := s.outstanding - |V.SubmittedIn(s.pending)|);
    hide V.HandleUnavailable;
    ForgetCommutes(s, device, revision, s.outstanding - |submitted|);
  }

  /** Whether the registrations are forgotten before or after the device is degraded does not matter. */
  lemma ForgetCommutes(s: V.Service, device: DeviceId, revision: nat, outstanding: int)
    ensures Degrades(s.(unavailable := true, pending := map[], outstanding := outstanding),
                     V.Degrade(s.(unavailable := true), device, revision).(pending := map[], outstanding := outstanding),
                     device, revision)
  {
  }

  /** A failure for good: the registration and the write of the device on their way are forgotten and no longer counted. */
  lemma FailureOutcome(s: V.Service, device: DeviceId, revision: nat)
    ensures var finished := (if device in s.pending && s.pending[device].submitted then 1 else 0) +
                            (if device in s.submitted then 1 else 0);
            Degrades(s.(pending := s.pending - {device}, submitted := s.submitted - {device},
                        outstanding := s.outstanding - finished),
                     V.HandlePermanentFailure(s, Some(device), revision), device, revision)
  {
    var finished := (if device in s.pending && s.pending[device].submitted then 1 else 0) +
                    (if device in s.submitted then 1 else 0);
    DegradeOutcome(s.(pending := s.pending - {device}, submitted := s.submitted - {device},
                      outstanding := s.outstanding - finished), device, revision);
    assert device in V.SubmittedIn(s.pending) <==> device in s.pending && s.pending[device].submitted;
    hide Degrades, V.Degrade, V.SubmittedIn;
  }

  /** A failure of the whole store: everything on its way is forgotten and no longer counted. */
  lemma StopOutcome(s: V.Service, revision: nat, submitted: set<DeviceId>)
    requires forall d :: d in submitted <==> d in s.pending && s.pending[d].submitted
    ensures V.HandlePermanentFailure(s, None, revision) ==
            s.(pending := map[], submitted := map[], outstanding := s.outstanding - |submitted| - |s.submitted|)
  {
    SubmittedAre(s.pending, submitted);
    hide V.SubmittedIn;
  }

  // ---------------------------------------------------------------- submitting writes

  /** The worker's pending write of a device after `write` was merged into it. */
  ghost predicate IsMerged(before: Option<DeviceWrite>, write: DeviceWrite, after: DeviceWrite) {
    && (forall g: Group :: after.Flags(g) <==> write.Flags(g) || (before.Some? && before.value.Flags(g)))
    && (after.urgency.Immediate? <==> write.urgency.Immediate? || (before.Some? && before.value.urgency.Immediate?))
    && (if before.Some? && before.value.revision > write.revision
        then after.record == before.value.record && after.revision == before.value.revision
        else after.record == write.record && after.revision == write.revision)
  }

  lemma QueueOutcome(worker: W.Worker, write: DeviceWrite)
    ensures var (after, accepted) := W.SubmitWrite(worker, write);
            var device := write.record.device;
            && (accepted <==> worker.accepting)
            && (!accepted ==> after == worker)
            && (accepted ==>
                  && device in after.writes && IsMerged(Lookup(worker.writes, device), write, after.writes[device])
                  && after == worker.(writes := worker.writes[device := after.writes[device]]))
  {
  }

  /** The entry of a refused write: its groups are dirty again, nothing of it is in flight any more. */
  ghost predicate IsRestored(before: Option<S.Entry>, write: DeviceWrite, after: S.Entry) {
    && (forall g: Group :: write.Flags(g) ==>
          after.At(g).dirty >= write.revision &&
          (after.At(g).inFlight == 0 || after.At(g).inFlight > write.revision))
    && (forall g: Group :: after.At(g).dirty >= if before.Some? then before.value.At(g).dirty else 0)
    && (write.urgency.Immediate? ==> after.urgency.Immediate?)
    && after.revision >= write.revision
    && (after.revision == write.revision ==> after.record == write.record)
  }

  lemma RestoreOutcome(entry: Option<S.Entry>, write: DeviceWrite, at: Time)
    ensures IsRestored(entry, write, S.RestoreEntry(entry, write, at))
  {
    S.RestoredFields(entry, write, at);
    S.RefreshedAt(entry, write, at);
  }

  /** A write is counted once per device while it is on its way; a refused one goes back into the cache. */
  lemma SubmitOutcome(s: V.Service, write: DeviceWrite, at: Time)
    ensures var (after, accepted) := V.SubmitWrite(s, write, at);
            var device := write.record.device;
            && (accepted <==> s.worker.accepting)
            && (accepted ==>
                  && device in after.worker.writes
                  && IsMerged(Lookup(s.worker.writes, device), write, after.worker.writes[device])
                  && after == s.(worker := s.worker.(writes := s.worker.writes[device := after.worker.writes[device]]),
                                 submitted := s.submitted[device := write],
                                 outstanding := s.outstanding + if device in s.submitted then 0 else 1))
            && (!accepted ==>
                  exists entry: S.Entry :: IsRestored(Lookup(s.dirty, device), write, entry) &&
                    Degrades(s.(dirty := s.dirty[device := entry]), after, device, 0))
  {
    var device := write.record.device;
    QueueOutcome(s.worker, write);
    var entry := S.RestoreEntry(Lookup(s.dirty, device), write, at);
    RestoreOutcome(Lookup(s.dirty, device), write, at);
    DegradeOutcome(s.(dirty := s.dirty[device := entry]), device, 0);
    hide IsMerged, IsRestored, Degrades, V.Degrade, S.RestoreEntry, W.SubmitWrite;
  }

  // ---------------------------------------------------------------- recovery

  /** The device's whole record is on its way: every group it has is flagged, at the directory's revision or later. */
  ghost predicate IsRewritten(s: V.Service, device: DeviceId) {
    device in s.registry.records && device in s.worker.writes && device in s.submitted &&
    var (record, write) := (s.registry.records[device], s.worker.writes[device]);
    && write.writeMetadata && write.writeStatus && (record.telemetry.Some? ==> write.writeTelemetry)
    && write.revision >= record.revision && (write.revision == record.revision ==> write.record == record)
    && write.urgency.Immediate?
  }

  /** The same, waiting in the cache because the worker takes nothing. */
  ghost predicate IsKeptDirty(s: V.Service, device: DeviceId) {
    device in s.registry.records && device in s.dirty && device in s.degraded &&
    var (record, entry) := (s.registry.records[device], s.dirty[device]);
    && entry.metadata.dirty >= record.revision && entry.status.dirty >= record.revision
    && (record.telemetry.Some? ==> entry.telemetry.dirty >= record.revision)
    && entry.revision >= record.revision && (entry.revision == record.revision ==> entry.record == record)
    && entry.urgency.Immediate?
  }

  ghost predicate Keyed(s: V.Service) {
    forall d :: d in s.registry.records ==> s.registry.records[d].device == d
  }

  /** No pending write is newer than the directory; RecoveryFacts shows that of every state of a run. */
  ghost predicate NothingAhead(s: V.Service) {
    forall d :: d in s.worker.writes && d in s.registry.records ==>
      s.worker.writes[d].revision <= s.registry.records[d].revision
  }

  /** What stays while the degraded devices are visited. */
  ghost predicate SameAround(s: V.Service, after: V.Service) {
    && after.registry == s.registry && after.worker.accepting == s.worker.accepting && after.unavailable == s.unavailable
    && s.degraded.Keys <= after.degraded.Keys
    && (NothingAhead(s) ==> NothingAhead(after))
  }

  lemma RecoverOneOutcome(s: V.Service, device: DeviceId, at: Time)
    requires Keyed(s)
    ensures var after := V.RecoverOne(s, device, at);
            && SameAround(s, after)
            && (device in s.degraded && device in s.registry.records ==>
                  if s.worker.accepting then IsRewritten(after, device) else IsKeptDirty(after, device))
            && (forall d :: d != device && IsRewritten(s, d) ==> IsRewritten(after, d))
            && (forall d :: d != device && IsKeptDirty(s, d) ==> IsKeptDirty(after, d))
  {
    if device in s.degraded && device in s.registry.records {
      if s.worker.accepting {
        RewriteOutcome(s, device, at);
      } else {
        KeepDirtyOutcome(s, device, at);
      }
      hide V.SubmitWrite, IsRewritten, IsKeptDirty;
    }
  }

  lemma RewriteOutcome(s: V.Service, device: DeviceId, at: Time)
    requires Keyed(s) && s.worker.accepting && device in s.registry.records
    ensures var after := V.SubmitWrite(s, V.FullWrite(s.registry.records[device]), at).0;
            && SameAround(s, after) && IsRewritten(after, device)
            && (forall d :: d != device && IsRewritten(s, d) ==> IsRewritten(after, d))
            && (forall d :: d != device && IsKeptDirty(s, d) ==> IsKeptDirty(after, d))
  {
    var write := V.FullWrite(s.registry.records[device]);
    SubmitOutcome(s, write, at);
    var after := V.SubmitWrite(s, write, at).0;
    hide V.SubmitWrite, Degrades;
    assert after.worker.writes[device].Flags(Metadata) && after.worker.writes[device].Flags(Status);
    assert write.Flags(Telemetry) ==> after.worker.writes[device].Flags(Telemetry);
  }

  lemma KeepDirtyOutcome(s: V.Service, device: DeviceId, at: Time)
    requires Keyed(s) && !s.worker.accepting && device in s.degraded && device in s.registry.records
    ensures var after := V.SubmitWrite(s, V.FullWrite(s.registry.records[device]), at).0;
            && SameAround(s, after) && IsKeptDirty(after, device)
            && (forall d :: d != device && IsRewritten(s, d) ==> IsRewritten(after, d))
            && (forall d :: d != device && IsKeptDirty(s, d) ==> IsKeptDirty(after, d))
  {
    var write := V.FullWrite(s.registry.records[device]);
    SubmitOutcome(s, write, at);
    var after := V.SubmitWrite(s, write, at).0;
    hide V.SubmitWrite, IsMerged;
    assert after.dirty[device].At(Metadata) == after.dirty[device].metadata;
    assert after.dirty[device].At(Status) == after.dirty[device].status;
    assert after.dirty[device].At(Telemetry) == after.dirty[device].telemetry;
    assert write.Flags(Metadata) && write.Flags(Status);
  }

  lemma {:induction false} RecoverEachOutcome(s: V.Service, devices: seq<DeviceId>, at: Time)
    requires Keyed(s) && NoDuplicates(devices)
    ensures var after := V.RecoverEach(s, devices, at);
            && SameAround(s, after)
            && (forall d :: d in devices && d in s.degraded && d in s.registry.records ==>
                  if s.worker.accepting then IsRewritten(after, d) else IsKeptDirty(after, d))
            && (forall d :: d !in devices && IsRewritten(s, d) ==> IsRewritten(after, d))
            && (forall d :: d !in devices && IsKeptDirty(s, d) ==> IsKeptDirty(after, d))
    decreases devices
  {
    if devices != [] {
      var first := V.RecoverOne(s, devices[0], at);
      RecoverOneOutcome(s, devices[0], at);
      hide V.RecoverOne, IsRewritten, IsKeptDirty;
      assert devices[0] !in devices[1..];
      RecoverEachOutcome(first, devices[1..], at);
    }
  }

  /**
   After a recovery the outage is over, and every degraded device the directory knows is on its way to the
   database in full, with its record of the directory, or dirty in full when the worker takes nothing.
   */
  lemma RecoveredOutcome(s: V.Service, devices: seq<DeviceId>, at: Time)
    requires Keyed(s) && NoDuplicates(devices) && forall d :: d in devices <==> d in s.degraded
    ensures var after := V.HandleResult(s, DatabaseRecovered, devices, at);
            && !after.unavailable && after.registry == s.registry
            && forall d :: d in s.degraded && d in s.registry.records ==>
                 if s.worker.accepting then
                   IsRewritten(after, d) && (NothingAhead(s) ==> after.worker.writes[d].record == s.registry.records[d])
                 else IsKeptDirty(after, d)
  {
    hide V.RecoverEach, IsKeptDirty;
    RecoverEachOutcome(s.(unavailable := false), devices, at);
  }

  // ---------------------------------------------------------------- dispatch

  /** All groups of the write are on their way, at its revision or later. */
  ghost predicate IsSent(s: V.Service, write: DeviceWrite) {
    var device := write.record.device;
    && device in s.submitted && device in s.worker.writes && s.worker.writes[device].revision >= write.revision
    && forall g: Group :: write.Flags(g) ==> s.worker.writes[device].Flags(g)
  }

  lemma SubmitSends(s: V.Service, write: DeviceWrite, at: Time)
    requires s.worker.accepting
    ensures var (after, accepted) := V.SubmitWrite(s, write, at);
            && accepted && after.dirty == s.dirty && after.worker.accepting && IsSent(after, write)
            && (forall w :: IsSent(s, w) ==> IsSent(after, w))
  {
    SubmitOutcome(s, write, at);
    hide V.SubmitWrite, Degrades, IsRestored;
  }

  lemma {:induction false} SendOutcome(s: V.Service, writes: seq<DeviceWrite>, at: Time)
    requires s.worker.accepting
    ensures var (after, all) := V.Send(s, writes, at);
            && all && after.dirty == s.dirty && after.worker.accepting
            && (forall w :: w in writes || IsSent(s, w) ==> IsSent(after, w))
    decreases writes
  {
    if writes != [] {
      SubmitSends(s, writes[0], at);
      hide V.SubmitWrite, IsSent;
      SendOutcome(V.SubmitWrite(s, writes[0], at).0, writes[1..], at);
    }
  }

  lemma {:induction false} WritesOfAll(entries: S.Entries, devices: seq<DeviceId>)
    requires forall d :: d in devices ==> d in entries
    ensures forall d :: d in devices ==> S.WriteOf(entries[d]) in S.WritesOf(entries, devices)
    decreases devices
  {
    if devices != [] {
      hide S.WriteOf;
      WritesOfAll(entries, devices[1..]);
    }
  }

  lemma TakeAndSendOutcome(s: V.Service, selection: S.Selection, devices: seq<DeviceId>, at: Time)
    requires S.Visits(s.dirty, selection, devices) && s.worker.accepting
    ensures var (after, all) := V.TakeAndSend(s, selection, devices, at);
            && all && after.dirty == S.TakeMatching(s.dirty, selection) && after.worker.accepting
            && (forall d :: d in s.dirty && S.Selected(s.dirty[d], selection) ==> IsSent(after, S.WriteOf(s.dirty[d])))
            && (forall w :: IsSent(s, w) ==> IsSent(after, w))
  {
    hide V.Send, S.WriteOf, S.TakeMatching, S.Selected;
    var taken := s.(dirty := S.TakeMatching(s.dirty, selection));
    WritesOfAll(s.dirty, devices);
    SendOutcome(taken, S.WritesOf(s.dirty, devices), at);
    forall w | IsSent(s, w) ensures IsSent(taken, w) {
    }
    hide IsSent;
  }

  /** Due: something is dirty, and it is urgent, has waited for the interval, or the input is drained. */
  ghost predicate IsDue(s: V.Service, device: DeviceId, interval: nat, at: Time) {
    device in s.dirty && (exists g: Group :: s.dirty[device].At(g).dirty != 0) &&
    (s.inputDrained || s.dirty[device].urgency.Immediate? || s.dirty[device].markedAt + interval <= at)
  }

  /** Every dirty group of the entry is on its way with the newest record's revision, and dirty no longer. */
  ghost predicate IsDispatched(entry: S.Entry, after: V.Service, device: DeviceId) {
    device in after.dirty && device in after.submitted && device in after.worker.writes &&
    var write := after.worker.writes[device];
    && write.revision >= entry.revision
    && (forall g: Group :: entry.At(g).dirty != 0 ==> write.Flags(g))
    && (forall g: Group :: after.dirty[device].At(g).dirty == 0)
  }

  lemma DispatchedFrom(entry: S.Entry, after: V.Service, device: DeviceId)
    requires entry.record.device == device && IsSent(after, S.WriteOf(entry))
    requires device in after.dirty && after.dirty[device] == S.Dispatched(entry)
    ensures IsDispatched(entry, after, device)
  {
    S.DispatchedFields(entry);
    forall g: Group | entry.At(g).dirty != 0 ensures S.WriteOf(entry).Flags(g) {
    }
  }

  lemma DueIsSelected(s: V.Service, device: DeviceId, interval: nat, at: Time)
    requires device in s.dirty
    ensures IsDue(s, device, interval, at) <==>
              if s.inputDrained then S.Selected(s.dirty[device], S.AllDirty)
              else S.Selected(s.dirty[device], S.AllImmediate) || S.Selected(s.dirty[device], S.TelemetryDue(at, interval))
    ensures !S.HasDirty(S.Dispatched(s.dirty[device]))
  {
    S.WorkByGroup(s.dirty[device]);
  }

  lemma DrainDispatches(s: V.Service, sent: V.Service, after: V.Service, interval: nat, at: Time)
    requires s.inputDrained && forall d :: d in s.dirty ==> s.dirty[d].record.device == d
    requires sent.dirty == S.TakeMatching(s.dirty, S.AllDirty) && after == sent.(dispatchPending := false)
    requires forall d :: d in s.dirty && S.Selected(s.dirty[d], S.AllDirty) ==> IsSent(sent, S.WriteOf(s.dirty[d]))
    ensures forall d :: IsDue(s, d, interval, at) ==> IsDispatched(s.dirty[d], after, d)
    ensures forall d :: !IsDue(s, d, interval, at) ==> Lookup(after.dirty, d) == Lookup(s.dirty, d)
  {
    forall d ensures if IsDue(s, d, interval, at) then IsDispatched(s.dirty[d], after, d)
                     else Lookup(after.dirty, d) == Lookup(s.dirty, d)
    {
      if d in s.dirty {
        DueIsSelected(s, d, interval, at);
        hide S.Selected, IsDue, IsDispatched, S.Dispatched, S.WriteOf;
        if IsDue(s, d, interval, at) {
          DispatchedFrom(s.dirty[d], after, d);
        }
      }
    }
  }

  lemma UrgentThenDue(s: V.Service, sent: V.Service, after: V.Service, interval: nat, at: Time)
    requires !s.inputDrained && forall d :: d in s.dirty ==> s.dirty[d].record.device == d
    requires sent.dirty == S.TakeMatching(s.dirty, S.AllImmediate)
    requires after.dirty == S.TakeMatching(sent.dirty, S.TelemetryDue(at, interval))
    requires forall d :: d in s.dirty && S.Selected(s.dirty[d], S.AllImmediate) ==> IsSent(after, S.WriteOf(s.dirty[d]))
    requires forall d :: d in sent.dirty && S.Selected(sent.dirty[d], S.TelemetryDue(at, interval)) ==>
               IsSent(after, S.WriteOf(sent.dirty[d]))
    ensures forall d :: IsDue(s, d, interval, at) ==> IsDispatched(s.dirty[d], after, d)
    ensures forall d :: !IsDue(s, d, interval, at) ==> Lookup(after.dirty, d) == Lookup(s.dirty, d)
  {
    forall d ensures if IsDue(s, d, interval, at) then IsDispatched(s.dirty[d], after, d)
                     else Lookup(after.dirty, d) == Lookup(s.dirty, d)
    {
      if d in s.dirty {
        DueIsSelected(s, d, interval, at);
        assert S.Selected(sent.dirty[d], S.TelemetryDue(at, interval)) ==> S.HasDirty(sent.dirty[d]);
        hide S.Selected, IsDue, IsDispatched, S.Dispatched, S.WriteOf, IsSent, S.HasDirty;
        if IsDue(s, d, interval, at) {
          DispatchedFrom(s.dirty[d], after, d);
        }
      }
    }
  }

  /**
   A dispatch sends every group that is due while the worker takes writes, and leaves every other entry as
   it is; nothing is sent during an outage or once a drain was blocked.
   */
  lemma DispatchOutcome(s: V.Service, after: V.Service, interval: nat, first: seq<DeviceId>, second: seq<DeviceId>, at: Time)
    requires V.Dispatches(s, after, interval, first, second, at)
    requires s.worker.accepting && forall d :: d in s.dirty ==> s.dirty[d].record.device == d
    ensures s.unavailable || (s.inputDrained && s.blocked) ==> after == s
    ensures !s.unavailable && !(s.inputDrained && s.blocked) ==>
              && (forall d :: IsDue(s, d, interval, at) ==> IsDispatched(s.dirty[d], after, d))
              && (forall d :: !IsDue(s, d, interval, at) ==> Lookup(after.dirty, d) == Lookup(s.dirty, d))
              && (s.inputDrained ==> !after.dispatchPending)
  {
    hide V.TakeAndSend, S.Visits, IsDue, IsDispatched, S.Selected, S.Dispatched, S.WriteOf, IsSent, S.HasDirty;
    if !s.unavailable && !(s.inputDrained && s.blocked) {
      var selection := if s.inputDrained then S.AllDirty else S.AllImmediate;
      TakeAndSendOutcome(s, selection, first, at);
      var sent := V.TakeAndSend(s, selection, first, at).0;
      if s.inputDrained {
        DrainDispatches(s, sent, after, interval, at);
      } else {
        TakeAndSendOutcome(sent, S.TelemetryDue(at, interval), second, at);
        UrgentThenDue(s, sent, after, interval, at);
      }
    }
  }

  // ---------------------------------------------------------------- completed writes

  /**
   The write on its way is settled once a revision as new as it is stored; the device recovers once a
   revision as new as the degraded one is, and only that is announced.
   */
  lemma CompletedOutcome(s: V.Service, device: DeviceId, revision: nat)
    ensures var after := V.HandleCompleted(s, device, revision);
            var settled := if device in s.submitted && s.submitted[device].revision <= revision
                           then s.(submitted := s.submitted - {device}, outstanding := s.outstanding - 1,
                                   dirty := S.Complete(s.dirty, s.submitted[device]))
                           else s;
            if device in s.degraded && s.degraded[device] <= revision then
              after == settled.(degraded := s.degraded - {device},
                                events := if device !in s.registry.records then s.events
                                          else s.events + [V.Event(s.registry.records[device], R.Recovery, false)])
            else after == settled
  {
    hide S.Complete;
    SettleOutcome(s, device, revision);
    hide V.Settle;
  }

  lemma SettleOutcome(s: V.Service, device: DeviceId, revision: nat)
    ensures var after := V.Settle(s, device, revision);
            if device in s.submitted && s.submitted[device].revision <= revision then
              after == s.(submitted := s.submitted - {device}, outstanding := s.outstanding - 1,
                          dirty := S.Complete(s.dirty, s.submitted[device]))
            else after == s
  {
    hide S.Complete;
  }

  // ---------------------------------------------------------------- registrations of unknown devices

  /**
   A registration of an unknown device waits, the newest one for each device, unless the database is known
   to be unavailable; it is offered to the worker while it was not taken.
   */
  lemma WaitingOutcome(s: V.Service, registration: Registration, receivedAt: Time, at: Time)
    requires registration.device !in s.registry.records
    ensures var after := V.HandleRegistration(s, registration, receivedAt, at);
            if s.unavailable then after == s
            else
              && registration.device in after.pending
              && after == s.(pending := s.pending[registration.device := after.pending[registration.device]])
              && after.pending[registration.device].registration == registration
              && after.pending[registration.device].receivedAt == receivedAt
              && (after.pending[registration.device].submitted <==>
                    registration.device in s.pending && s.pending[registration.device].submitted)
  {
  }

  lemma OfferOutcome(s: V.Service, device: DeviceId)
    requires device in s.pending && s.pending[device].registration.device == device
    ensures var after := V.SubmitPending(s, device);
            var offered := !s.unavailable && !s.pending[device].submitted;
            var taken := offered && s.worker.accepting && !s.worker.unavailable && device !in s.worker.provisioning;
            && after.outstanding == (if taken then s.outstanding + 1 else s.outstanding)
            && device in after.pending
            && (after.pending[device].submitted <==> s.pending[device].submitted || taken)
            && (taken ==> device in after.worker.provisions &&
                          after.worker.provisions[device] ==
                            W.Provision(s.pending[device].registration, s.pending[device].receivedAt))
            && (!taken ==> after == s)
  {
    assert s.pending[device := s.pending[device]] == s.pending;
  }

  /** The directory takes a record exactly when its id and its label of the school are free. */
  predicate IsFree(registry: R.Registry, record: DeviceRecord) {
    record.device !in registry.records &&
    (record.dcdwLabel.Some? ==> forall d :: d in registry.records ==> R.RoleOf(registry.records[d]) != R.RoleOf(record))
  }

  /** The state after `record` joined and the registration that waited for it was taken, or refused for its type. */
  ghost predicate Joins(s: V.Service, after: V.Service, record: DeviceRecord, waiting: V.Pending) {
    && after.registry.records.Keys == s.registry.records.Keys + {record.device}
    && (forall d :: d in s.registry.records ==> after.registry.records[d] == s.registry.records[d])
    && if waiting.registration.deviceType != record.deviceType then
         after.registry.records[record.device] == record && after.events == s.events
       else
         exists mutation: R.Mutation ::
           && R.IsRegisteredAs(record, waiting.registration, waiting.receivedAt, mutation)
           && mutation.record == after.registry.records[record.device] && mutation.record.revision == record.revision + 1
           && after.events == s.events + [V.Event(mutation.record, mutation.reason,
                                                  s.unavailable || record.device in s.degraded)]
  }

  lemma JoinOutcome(s: V.Service, registry: R.Registry, record: DeviceRecord, waiting: V.Pending, at: Time)
    requires R.Coherent(registry) && registry.records == s.registry.records[record.device := record]
    requires record.device !in s.registry.records && waiting.registration.device == record.device
    ensures var result := R.ApplyRegistration(registry, waiting.registration, waiting.receivedAt);
            var after := if result.Failure? then s.(registry := registry)
                         else V.Mark(s.(registry := result.value.0), result.value.1, at);
            && Joins(s, after, record, waiting)
            && after.pending == s.pending && after.outstanding == s.outstanding
  {
    R.RegistrationStores(registry, waiting.registration, waiting.receivedAt);
    var result := R.ApplyRegistration(registry, waiting.registration, waiting.receivedAt);
    if result.Success? {
      R.RegistrationAdvances(registry, waiting.registration, waiting.receivedAt);
      hide R.Coherent, R.ApplyRegistration, R.IsRegisteredAs, IsMarked;
      MarkOutcome(s.(registry := result.value.0), result.value.1, at);
      hide V.Mark;
      assert result.value.1.record.revision == record.revision + 1;
    }
  }

  lemma AddOutcome(registry: R.Registry, record: DeviceRecord)
    requires R.Coherent(registry)
    ensures var added := R.AddProvisioned(registry, record);
            && (added.Success? <==> IsFree(registry, record))
            && (added.Success? ==>
                  added.value.records == registry.records[record.device := record] && R.Coherent(added.value))
  {
    R.LoadOneKeeps(registry, record);
  }

  /**
   A provisioned record joins the directory when it is free and takes the registration that waited for it;
   one that is not free only lowers the count. Either way the registration is counted no longer.
   */
  lemma ProvisionedOutcome(s: V.Service, record: DeviceRecord, at: Time)
    requires R.Coherent(s.registry)
    requires record.device in s.pending ==> s.pending[record.device].registration.device == record.device
    ensures var after := V.HandleProvisioned(s, record.device, record, at);
            if record.device !in s.pending then after == s
            else
              var waiting := s.pending[record.device];
              && after.outstanding == (if waiting.submitted then s.outstanding - 1 else s.outstanding)
              && if IsFree(s.registry, record)
                 then after.pending == s.pending - {record.device} && Joins(s, after, record, waiting)
                 else after == s.(outstanding := after.outstanding)
  {
    AddOutcome(s.registry, record);
    hide R.Coherent, IsFree, Joins, R.LoadOne;
    if record.device in s.pending && R.AddProvisioned(s.registry, record).Success? {
      hide V.HandleProvisioned;
      JoinedOutcome(s, record, at);
    }
  }

  lemma JoinedOutcome(s: V.Service, record: DeviceRecord, at: Time)
    requires R.Coherent(s.registry) && record.device in s.pending && R.AddProvisioned(s.registry, record).Success?
    requires s.pending[record.device].registration.device == record.device
    ensures var after := V.HandleProvisioned(s, record.device, record, at);
            var waiting := s.pending[record.device];
            && after.outstanding == (if waiting.submitted then s.outstanding - 1 else s.outstanding)
            && after.pending == s.pending - {record.device} && Joins(s, after, record, waiting)
  {
    AddOutcome(s.registry, record);
    FreeIsNew(s.registry, record);
    var waiting := s.pending[record.device];
    var added := R.AddProvisioned(s.registry, record).value;
    var t := s.(pending := s.pending - {record.device},
                outstanding := if waiting.submitted then s.outstanding - 1 else s.outstanding);
    JoinOutcome(t, added, record, waiting, at);
    hide R.AddProvisioned, R.Coherent, IsFree, Joins, V.Mark, R.ApplyRegistration;
    JoinsIgnores(s, t, V.HandleProvisioned(s, record.device, record, at), record, waiting);
  }

  lemma JoinsIgnores(s: V.Service, t: V.Service, after: V.Service, record: DeviceRecord, waiting: V.Pending)
    requires t == s.(pending := t.pending, outstanding := t.outstanding) && Joins(t, after, record, waiting)
    ensures Joins(s, after, record, waiting)
  {
  }

  lemma FreeIsNew(registry: R.Registry, record: DeviceRecord)
    requires R.AddProvisioned(registry, record).Success?
    ensures record.device !in registry.records
  {
  }
}
