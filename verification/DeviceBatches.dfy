/**
 Work done for several devices in a row is the same as one step per device: a dispatch that takes all
 selected entries before it submits the first write, and an expiry that changes all records before it
 marks the first.
 */
module DeviceBatches {
  import opened Wrappers
  import opened Collections
  import opened DeviceTypes
  import R = DeviceRegistry
  import S = DirtyState
  import W = PostgresWorker
  import V = DeviceService

  // ---------------------------------------------------------------- dispatch

  function DispatchEach(s: V.Service, devices: seq<DeviceId>, at: Time): (V.Service, bool)
    decreases devices
  {
    if devices == [] then (s, true)
    else if devices[0] !in s.dirty then DispatchEach(s, devices[1..], at)
    else
      var (first, accepted) := V.DispatchOne(s, devices[0], at);
      var (rest, all) := DispatchEach(first, devices[1..], at);
      (rest, accepted && all)
  }

  function TakeEach(entries: S.Entries, devices: seq<DeviceId>): S.Entries
    decreases devices
  {
    if devices == [] then entries
    else TakeEach(if devices[0] in entries then S.TakeOne(entries, devices[0]) else entries, devices[1..])
  }

  lemma {:induction false} TakeEachAt(entries: S.Entries, devices: seq<DeviceId>)
    requires NoDuplicates(devices)
    ensures TakeEach(entries, devices).Keys == entries.Keys
    ensures forall d :: d in entries ==>
              TakeEach(entries, devices)[d] == if d in devices then S.Dispatched(entries[d]) else entries[d]
    decreases devices
  {
    if devices != [] {
      TakeEachAt(if devices[0] in entries then S.TakeOne(entries, devices[0]) else entries, devices[1..]);
      assert devices[0] !in devices[1..];
    }
  }

  /** Taking all at once. */
  lemma TakeMatchingIsEach(entries: S.Entries, selection: S.Selection, devices: seq<DeviceId>)
    requires S.Visits(entries, selection, devices)
    ensures S.TakeMatching(entries, selection) == TakeEach(entries, devices)
  {
    TakeEachAt(entries, devices);
  }

  lemma RestoreCommutes(entries: S.Entries, write: DeviceWrite, devices: seq<DeviceId>, at: Time)
    requires NoDuplicates(devices) && write.record.device !in devices
    ensures S.Restore(TakeEach(entries, devices), write, at) == TakeEach(S.Restore(entries, write, at), devices)
  {
    hide S.RestoreEntry;
    TakeEachAt(entries, devices);
    TakeEachAt(S.Restore(entries, write, at), devices);
  }

  lemma AcceptedCommutes(s: V.Service, write: DeviceWrite, dirty: S.Entries, at: Time)
    requires s.worker.accepting
    ensures var (after, accepted) := V.SubmitWrite(s, write, at);
            accepted && after.dirty == s.dirty && V.SubmitWrite(s.(dirty := dirty), write, at) == (after.(dirty := dirty), true)
  {
    hide W.MergeWrite;
  }

  lemma DegradeIgnoresCache(s: V.Service, dirty: S.Entries, device: DeviceId, revision: nat)
    ensures V.Degrade(s.(dirty := dirty), device, revision) == V.Degrade(s, device, revision).(dirty := dirty)
  {
    var t := s.(dirty := dirty);
    assert V.ReasonOf(t, device) == V.ReasonOf(s, device);
    hide V.ReasonOf, S.Max;
    if device in s.registry.records {
      var record := s.registry.records[device];
      var degraded := s.degraded[device := S.Max(record.revision, revision)];
      var reason := V.ReasonOf(s, device);
      assert V.Publish(t.(degraded := degraded), record, reason, true) ==
             V.Publish(s.(degraded := degraded), record, reason, true).(dirty := dirty);
      hide V.Publish;
    }
  }

  lemma RefusedCommutes(s: V.Service, write: DeviceWrite, dirty: S.Entries, at: Time)
    requires !s.worker.accepting
    ensures var (after, accepted) := V.SubmitWrite(s, write, at);
            !accepted && after.dirty == S.Restore(s.dirty, write, at) &&
            V.SubmitWrite(s.(dirty := dirty), write, at) == (after.(dirty := S.Restore(dirty, write, at)), false)
  {
    hide S.Restore, V.Degrade;
    DegradeIgnoresCache(s, S.Restore(s.dirty, write, at), write.record.device, 0);
    DegradeIgnoresCache(s, S.Restore(dirty, write, at), write.record.device, 0);
  }

  /** Taking the other entries first does not matter to a submission. */
  lemma TakeCommutes(s: V.Service, write: DeviceWrite, devices: seq<DeviceId>, at: Time)
    requires NoDuplicates(devices) && write.record.device !in devices
    ensures var (after, accepted) := V.SubmitWrite(s, write, at);
            V.SubmitWrite(s.(dirty := TakeEach(s.dirty, devices)), write, at) ==
            (after.(dirty := TakeEach(after.dirty, devices)), accepted)
  {
    hide V.SubmitWrite;
    if s.worker.accepting {
      AcceptedCommutes(s, write, TakeEach(s.dirty, devices), at);
    } else {
      RefusedCommutes(s, write, TakeEach(s.dirty, devices), at);
      RestoreCommutes(s.dirty, write, devices, at);
    }
  }

  lemma {:induction false} SameWrites(a: S.Entries, b: S.Entries, devices: seq<DeviceId>)
    requires forall d :: d in devices ==> d in a && d in b && a[d] == b[d]
    ensures S.WritesOf(a, devices) == S.WritesOf(b, devices)
    decreases devices
  {
    if devices != [] {
      SameWrites(a, b, devices[1..]);
    }
  }

  lemma SubmitTouchesOne(s: V.Service, write: DeviceWrite, at: Time, d: DeviceId)
    requires d != write.record.device
    ensures var after := V.SubmitWrite(s, write, at).0;
            (d in after.dirty <==> d in s.dirty) && (d in s.dirty ==> after.dirty[d] == s.dirty[d])
  {
    hide V.SubmitWrite, S.RestoreEntry;
    if s.worker.accepting {
      AcceptedCommutes(s, write, s.dirty, at);
    } else {
      RefusedCommutes(s, write, s.dirty, at);
    }
  }

  lemma {:induction false} SendIsEach(s: V.Service, devices: seq<DeviceId>, at: Time)
    requires NoDuplicates(devices) && forall d :: d in devices ==> d in s.dirty && s.dirty[d].record.device == d
    ensures V.Send(s.(dirty := TakeEach(s.dirty, devices)), S.WritesOf(s.dirty, devices), at) == DispatchEach(s, devices, at)
    decreases devices
  {
    if devices != [] {
      var (device, rest) := (devices[0], devices[1..]);
      var write := S.WriteOf(s.dirty[device]);
      var taken := s.(dirty := S.TakeOne(s.dirty, device));
      var (after, accepted) := V.DispatchOne(s, device, at);
      assert device !in rest;
      TakeCommutes(taken, write, rest, at);
      forall d | d in rest ensures d in after.dirty && after.dirty[d] == s.dirty[d] {
        SubmitTouchesOne(taken, write, at, d);
      }
      SameWrites(s.dirty, after.dirty, rest);
      hide V.SubmitWrite, S.WriteOf;
      SendIsEach(after, rest, at);
      assert S.WritesOf(s.dirty, devices) == [write] + S.WritesOf(s.dirty, rest);
      assert TakeEach(s.dirty, devices) == TakeEach(taken.dirty, rest);
    }
  }

  /** Taking every selected entry and then submitting is dispatching one device after the other. */
  lemma DispatchIsStepwise(s: V.Service, selection: S.Selection, devices: seq<DeviceId>, at: Time)
    requires S.Visits(s.dirty, selection, devices) && forall d :: d in s.dirty ==> s.dirty[d].record.device == d
    ensures V.TakeAndSend(s, selection, devices, at) == DispatchEach(s, devices, at)
  {
    TakeMatchingIsEach(s.dirty, selection, devices);
    SendIsEach(s, devices, at);
  }

  // ---------------------------------------------------------------- expiry

  function ExpireRecords(records: map<DeviceId, DeviceRecord>, devices: seq<DeviceId>): map<DeviceId, DeviceRecord>
    decreases devices
  {
    if devices == [] then records
    else
      ExpireRecords(if devices[0] in records then records[devices[0] := R.Expired(records[devices[0]])] else records,
                    devices[1..])
  }

  lemma {:induction false} ExpireRecordsAt(records: map<DeviceId, DeviceRecord>, devices: seq<DeviceId>)
    requires NoDuplicates(devices)
    ensures ExpireRecords(records, devices).Keys == records.Keys
    ensures forall d :: d in records ==>
              ExpireRecords(records, devices)[d] == if d in devices then R.Expired(records[d]) else records[d]
    decreases devices
  {
    if devices != [] {
      ExpireRecordsAt(if devices[0] in records then records[devices[0] := R.Expired(records[devices[0]])] else records,
                      devices[1..]);
      assert devices[0] !in devices[1..];
    }
  }

  lemma {:induction false} MarkIgnoresRegistry(s: V.Service, registry: R.Registry, mutations: seq<R.Mutation>, at: Time)
    ensures V.MarkEach(s.(registry := registry), mutations, at) == V.MarkEach(s, mutations, at).(registry := registry)
    decreases mutations
  {
    if mutations != [] {
      hide S.Mark, V.WriteFor;
      assert V.Mark(s.(registry := registry), mutations[0], at) == V.Mark(s, mutations[0], at).(registry := registry);
      hide V.Mark;
      MarkIgnoresRegistry(V.Mark(s, mutations[0], at), registry, mutations[1..], at);
    }
  }

  lemma {:induction false} MarksAreEach(s: V.Service, devices: seq<DeviceId>, mutations: seq<R.Mutation>, now: Time,
                                        timeout: nat, at: Time)
    requires NoDuplicates(devices) && |mutations| == |devices|
    requires forall d :: d in devices ==> d in s.registry.records && R.IsInactive(s.registry.records[d], now, timeout)
    requires forall k :: 0 <= k < |devices| ==> mutations[k] == R.ExpiryOf(s.registry.records[devices[k]])
    ensures V.ExpireEach(s, devices, now, timeout, at) ==
            V.MarkEach(s, mutations, at).(registry := s.registry.(records := ExpireRecords(s.registry.records, devices)))
    decreases devices
  {
    if devices == [] {
      assert mutations == [];
    } else {
      var (device, rest) := (devices[0], devices[1..]);
      var record := s.registry.records[device];
      var registry := s.registry.(records := s.registry.records[device := R.Expired(record)]);
      var first := V.ExpireOne(s, device, now, timeout, at);
      assert device !in rest;
      hide S.Mark, V.WriteFor;
      assert first == V.Mark(s, mutations[0], at).(registry := registry);
      hide V.Mark, V.ExpireOne, R.IsInactive;
      forall k | 0 <= k < |rest| ensures mutations[1..][k] == R.ExpiryOf(first.registry.records[rest[k]]) {
        assert rest[k] == devices[k + 1] && rest[k] != device;
      }
      MarksAreEach(first, rest, mutations[1..], now, timeout, at);
      MarkIgnoresRegistry(V.Mark(s, mutations[0], at), registry, mutations[1..], at);
    }
  }

  /** Expiring every inactive device and then marking is one expiry after the other. */
  lemma ExpiryIsStepwise(s: V.Service, now: Time, timeout: nat, devices: seq<DeviceId>, mutations: seq<R.Mutation>, at: Time)
    requires R.Expires(s.registry, now, timeout, devices, mutations)
    ensures V.MarkEach(s.(registry := R.ExpireInactive(s.registry, now, timeout)), mutations, at) ==
            V.ExpireEach(s, devices, now, timeout, at)
  {
    ExpireRecordsAt(s.registry.records, devices);
    assert R.ExpireInactive(s.registry, now, timeout).records == ExpireRecords(s.registry.records, devices);
    MarksAreEach(s, devices, mutations, now, timeout, at);
    MarkIgnoresRegistry(s, R.ExpireInactive(s.registry, now, timeout), mutations, at);
  }
}
