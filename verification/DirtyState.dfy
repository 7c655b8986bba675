/** The write-behind cache: per device the newest record, and which field groups still have to be written. */
module DirtyState {
  import opened Wrappers
  import opened Collections
  import opened DeviceTypes

  /** Revision 0 means: not dirty, not in flight. */
  datatype Field = Field(dirty: nat, inFlight: nat)

  datatype Entry = Entry(
    record: DeviceRecord,
    revision: nat,
    metadata: Field,
    status: Field,
    telemetry: Field,
    urgency: Urgency,
    markedAt: Time)
  {
    function At(group: Group): Field {
      match group
      case Metadata => metadata
      case Status => status
      case Telemetry => telemetry
    }
  }

  type Entries = map<DeviceId, Entry>

  const CLEAN := Field(0, 0)

  function Max(a: nat, b: nat): nat {
    if a >= b then a else b
  }

  // ---------------------------------------------------------------- marking

  function MarkField(field: Field, selected: bool, revision: nat): Field {
    if selected then field.(dirty := Max(field.dirty, revision)) else field
  }

  /** The entry a mark or a restore works on: a new one, or the old one with the newer record. */
  function Refreshed(entry: Option<Entry>, write: DeviceWrite, at: Time): Entry {
    match entry
    case None => Entry(write.record, write.revision, CLEAN, CLEAN, CLEAN, TelemetryBatch, at)
    case Some(e) =>
      if write.revision >= e.revision then e.(record := write.record, revision := write.revision) else e
  }

  function MarkEntry(entry: Option<Entry>, write: DeviceWrite, at: Time): Entry {
    var e := Refreshed(entry, write, at);
    e.(metadata := MarkField(e.metadata, write.writeMetadata, write.revision),
       status := MarkField(e.status, write.writeStatus, write.revision),
       telemetry := MarkField(e.telemetry, write.writeTelemetry, write.revision),
       markedAt := if write.writeTelemetry && e.telemetry.dirty == 0 then at else e.markedAt,
       urgency := if write.urgency.Immediate? then Immediate else e.urgency)
  }

  function Mark(entries: Entries, write: DeviceWrite, at: Time): Entries {
    entries[write.record.device := MarkEntry(Lookup(entries, write.record.device), write, at)]
  }

  // ---------------------------------------------------------------- taking

  predicate HasDirty(entry: Entry) {
    entry.metadata.dirty != 0 || entry.status.dirty != 0 || entry.telemetry.dirty != 0
  }

  predicate FieldHasWork(field: Field) {
    field.dirty != 0 || field.inFlight != 0
  }

  predicate HasWork(entry: Entry) {
    FieldHasWork(entry.metadata) || FieldHasWork(entry.status) || FieldHasWork(entry.telemetry)
  }

  datatype Selection = AllImmediate | TelemetryDue(now: Time, interval: nat) | AllDirty

  predicate Selected(entry: Entry, selection: Selection) {
    HasDirty(entry) &&
    match selection
    case AllImmediate => entry.urgency.Immediate?
    case TelemetryDue(now, interval) => !entry.urgency.Immediate? && now - entry.markedAt >= interval
    case AllDirty => true
  }

  function DispatchField(field: Field): Field {
    Field(0, Max(field.inFlight, field.dirty))
  }

  function WriteOf(entry: Entry): DeviceWrite {
    DeviceWrite(entry.record, entry.revision, entry.metadata.dirty != 0, entry.status.dirty != 0,
                entry.telemetry.dirty != 0, entry.urgency)
  }

  function Dispatched(entry: Entry): Entry {
    entry.(metadata := DispatchField(entry.metadata), status := DispatchField(entry.status),
           telemetry := DispatchField(entry.telemetry), urgency := TelemetryBatch)
  }

  function TakeOne(entries: Entries, device: DeviceId): Entries
    requires device in entries
  {
    entries[device := Dispatched(entries[device])]
  }

  /** All selected entries are dispatched at once. */
  function TakeMatching(entries: Entries, selection: Selection): Entries {
    map d | d in entries :: if Selected(entries[d], selection) then Dispatched(entries[d]) else entries[d]
  }

  function WritesOf(entries: Entries, devices: seq<DeviceId>): seq<DeviceWrite>
    requires forall d :: d in devices ==> d in entries
    decreases devices
  {
    if devices == [] then [] else [WriteOf(entries[devices[0]])] + WritesOf(entries, devices[1..])
  }

  lemma WritesOfNothing(entries: Entries)
    ensures WritesOf(entries, []) == []
  {
  }

  lemma {:induction false} WritesOfAppend(entries: Entries, devices: seq<DeviceId>, device: DeviceId)
    requires device in entries && forall d :: d in devices ==> d in entries
    ensures WritesOf(entries, devices + [device]) == WritesOf(entries, devices) + [WriteOf(entries[device])]
    decreases devices
  {
    if devices != [] {
      WritesOfAppend(entries, devices[1..], device);
      assert (devices + [device])[1..] == devices[1..] + [device];
    }
  }

  /** `devices` are the selected devices in the order they are visited. */
  ghost predicate Visits(entries: Entries, selection: Selection, devices: seq<DeviceId>) {
    NoDuplicates(devices) &&
    forall d :: d in devices <==> d in entries && Selected(entries[d], selection)
  }

  // ---------------------------------------------------------------- completing and restoring

  function CompleteField(field: Field, selected: bool, revision: nat): Field {
    if selected && field.inFlight != 0 && field.inFlight <= revision then field.(inFlight := 0) else field
  }

  function CompleteEntry(entry: Entry, write: DeviceWrite): Entry {
    entry.(metadata := CompleteField(entry.metadata, write.writeMetadata, write.revision),
           status := CompleteField(entry.status, write.writeStatus, write.revision),
           telemetry := CompleteField(entry.telemetry, write.writeTelemetry, write.revision))
  }

  function Complete(entries: Entries, write: DeviceWrite): Entries {
    var device := write.record.device;
    if device !in entries then entries
    else
      var entry := CompleteEntry(entries[device], write);
      if HasWork(entry) then entries[device := entry] else entries - {device}
  }

  function RestoreField(field: Field, selected: bool, revision: nat): Field {
    if !selected then field
    else Field(Max(field.dirty, revision), if field.inFlight <= revision then 0 else field.inFlight)
  }

  function RestoreEntry(entry: Option<Entry>, write: DeviceWrite, at: Time): Entry {
    var e := Refreshed(entry, write, at);
    e.(metadata := RestoreField(e.metadata, write.writeMetadata, write.revision),
       status := RestoreField(e.status, write.writeStatus, write.revision),
       telemetry := RestoreField(e.telemetry, write.writeTelemetry, write.revision),
       urgency := if write.urgency.Immediate? then Immediate else e.urgency)
  }

  function Restore(entries: Entries, write: DeviceWrite, at: Time): Entries {
    entries[write.record.device := RestoreEntry(Lookup(entries, write.record.device), write, at)]
  }

  // ---------------------------------------------------------------- the cache invariant

  /** The entry is at least as new as everything dirty or in flight in it, and has some work left. */
  ghost predicate EntryOk(device: DeviceId, entry: Entry) {
    && entry.record.device == device
    && (forall g: Group :: entry.At(g).dirty <= entry.revision && entry.At(g).inFlight <= entry.revision)
    && HasWork(entry)
  }

  ghost predicate Coherent(entries: Entries) {
    forall d :: d in entries ==> EntryOk(d, entries[d])
  }

  /** A mark carries at least one group and a revision above 0. */
  predicate Carries(write: DeviceWrite) {
    write.revision > 0 && (write.writeMetadata || write.writeStatus || write.writeTelemetry)
  }

  lemma RefreshedAt(entry: Option<Entry>, write: DeviceWrite, at: Time)
    ensures forall g: Group :: Refreshed(entry, write, at).At(g) == if entry.Some? then entry.value.At(g) else CLEAN
  {
  }

  lemma MarkedFields(entry: Option<Entry>, write: DeviceWrite, at: Time)
    ensures forall g: Group ::
              MarkEntry(entry, write, at).At(g) == MarkField(Refreshed(entry, write, at).At(g), write.Flags(g), write.revision)
  {
  }

  lemma RestoredFields(entry: Option<Entry>, write: DeviceWrite, at: Time)
    ensures forall g: Group ::
              RestoreEntry(entry, write, at).At(g) == RestoreField(Refreshed(entry, write, at).At(g), write.Flags(g), write.revision)
  {
  }

  lemma CompletedFields(entry: Entry, write: DeviceWrite)
    ensures forall g: Group ::
              CompleteEntry(entry, write).At(g) == CompleteField(entry.At(g), write.Flags(g), write.revision)
  {
  }

  lemma DispatchedFields(entry: Entry)
    ensures forall g: Group :: Dispatched(entry).At(g) == DispatchField(entry.At(g))
  {
  }

  lemma WorkByGroup(entry: Entry)
    ensures HasWork(entry) <==> exists g: Group :: FieldHasWork(entry.At(g))
    ensures HasDirty(entry) <==> exists g: Group :: entry.At(g).dirty != 0
  {
    assert entry.metadata == entry.At(Metadata) && entry.status == entry.At(Status) && entry.telemetry == entry.At(Telemetry);
  }

  lemma SomeGroup(write: DeviceWrite)
    requires Carries(write)
    ensures exists g: Group :: write.Flags(g)
  {
    assert write.writeMetadata == write.Flags(Metadata) && write.writeStatus == write.Flags(Status) &&
           write.writeTelemetry == write.Flags(Telemetry);
  }

  /** Refreshing keeps the fields, and the entry is then as new as the write. */
  lemma RefreshedFields(entries: Entries, write: DeviceWrite, at: Time)
    requires Coherent(entries)
    ensures var e := Refreshed(Lookup(entries, write.record.device), write, at);
            e.record.device == write.record.device && e.revision >= write.revision &&
            forall g: Group :: e.At(g).dirty <= e.revision && e.At(g).inFlight <= e.revision
  {
    var present := Lookup(entries, write.record.device);
    if present.Some? {
      assert EntryOk(write.record.device, present.value);
      RefreshedAt(present, write, at);
    }
  }

  lemma MarkKeeps(entries: Entries, write: DeviceWrite, at: Time)
    requires Coherent(entries) && Carries(write)
    ensures Coherent(Mark(entries, write, at))
  {
    var present := Lookup(entries, write.record.device);
    RefreshedFields(entries, write, at);
    MarkedFields(present, write, at);
    WorkByGroup(MarkEntry(present, write, at));
    SomeGroup(write);
    var g: Group :| write.Flags(g);
    assert FieldHasWork(MarkEntry(present, write, at).At(g));
    assert EntryOk(write.record.device, MarkEntry(present, write, at));
  }

  lemma TakeKeeps(entries: Entries, selection: Selection)
    requires Coherent(entries)
    ensures Coherent(TakeMatching(entries, selection))
  {
    forall d | d in entries ensures EntryOk(d, Dispatched(entries[d])) {
      DispatchedFields(entries[d]);
    }
  }

  lemma CompleteKeeps(entries: Entries, write: DeviceWrite)
    requires Coherent(entries)
    ensures Coherent(Complete(entries, write))
  {
    if write.record.device in entries {
      CompletedFields(entries[write.record.device], write);
    }
  }

  lemma RestoreKeeps(entries: Entries, write: DeviceWrite, at: Time)
    requires Coherent(entries) && Carries(write)
    ensures Coherent(Restore(entries, write, at))
  {
    var present := Lookup(entries, write.record.device);
    RefreshedFields(entries, write, at);
    RestoredFields(present, write, at);
    WorkByGroup(RestoreEntry(present, write, at));
    SomeGroup(write);
    var g: Group :| write.Flags(g);
    assert FieldHasWork(RestoreEntry(present, write, at).At(g));
    assert EntryOk(write.record.device, RestoreEntry(present, write, at));
  }

  // ---------------------------------------------------------------- coalescing

  /** The record of the newest of the marks made since `entry`. */
  function Newest(entry: Option<Entry>, marks: seq<DeviceWrite>): Option<(nat, DeviceRecord)> {
    if marks == [] then (if entry.Some? then Some((entry.value.revision, entry.value.record)) else None)
    else
      var last := marks[|marks| - 1];
      var before := Newest(entry, marks[..|marks| - 1]);
      if before.Some? && last.revision < before.value.0 then before else Some((last.revision, last.record))
  }

  function MarkAll(entry: Option<Entry>, marks: seq<DeviceWrite>, at: Time): Option<Entry> {
    if marks == [] then entry else Some(MarkEntry(MarkAll(entry, marks[..|marks| - 1], at), marks[|marks| - 1], at))
  }

  ghost predicate AnyFlags(entry: Option<Entry>, marks: seq<DeviceWrite>, group: Group) {
    (entry.Some? && entry.value.At(group).dirty != 0) || exists k :: 0 <= k < |marks| && marks[k].Flags(group)
  }

  ghost predicate AnyImmediate(entry: Option<Entry>, marks: seq<DeviceWrite>) {
    (entry.Some? && entry.value.urgency.Immediate?) || exists k :: 0 <= k < |marks| && marks[k].urgency.Immediate?
  }

  lemma AnyExtends(entry: Option<Entry>, earlier: seq<DeviceWrite>, last: DeviceWrite)
    ensures forall g: Group :: AnyFlags(entry, earlier + [last], g) <==> AnyFlags(entry, earlier, g) || last.Flags(g)
    ensures AnyImmediate(entry, earlier + [last]) <==> AnyImmediate(entry, earlier) || last.urgency.Immediate?
  {
    var marks := earlier + [last];
    forall g: Group ensures AnyFlags(entry, marks, g) <==> AnyFlags(entry, earlier, g) || last.Flags(g) {
      assert marks[|earlier|] == last;
      if k :| 0 <= k < |earlier| && earlier[k].Flags(g) {
        assert marks[k].Flags(g);
      }
    }
    assert marks[|earlier|] == last;
    if k :| 0 <= k < |earlier| && earlier[k].urgency.Immediate? {
      assert marks[k].urgency.Immediate?;
    }
  }

  /**
   However many marks were merged, the write taken for them carries the newest record, is immediate
   when one of them was, and flags exactly the groups that were dirty before or flagged by one of them.
   */
  lemma {:induction false} TakenWriteIsTheUnion(entry: Option<Entry>, marks: seq<DeviceWrite>, at: Time)
    requires forall k :: 0 <= k < |marks| ==> marks[k].revision > 0
    requires marks != [] || entry.Some?
    ensures MarkAll(entry, marks, at).Some?
    ensures var write := WriteOf(MarkAll(entry, marks, at).value);
            && Newest(entry, marks) == Some((write.revision, write.record))
            && (forall g: Group :: write.Flags(g) <==> AnyFlags(entry, marks, g))
            && (write.urgency.Immediate? <==> AnyImmediate(entry, marks))
            && (forall k :: 0 <= k < |marks| ==> marks[k].revision <= write.revision)
  {
    if marks != [] {
      var earlier := marks[..|marks| - 1];
      var last := marks[|marks| - 1];
      assert marks == earlier + [last];
      if earlier != [] || entry.Some? {
        TakenWriteIsTheUnion(entry, earlier, at);
      }
      MarkedWrite(MarkAll(entry, earlier, at), last, at);
      AnyExtends(entry, earlier, last);
    }
  }

  lemma MarkedWrite(entry: Option<Entry>, mark: DeviceWrite, at: Time)
    requires mark.revision > 0
    ensures var write := WriteOf(MarkEntry(entry, mark, at));
            && (forall g: Group :: write.Flags(g) <==> (entry.Some? && entry.value.At(g).dirty != 0) || mark.Flags(g))
            && (write.urgency.Immediate? <==> (entry.Some? && entry.value.urgency.Immediate?) || mark.urgency.Immediate?)
            && mark.revision <= write.revision
            && (if entry.Some? && mark.revision < entry.value.revision
                then write.revision == entry.value.revision && write.record == entry.value.record
                else write.revision == mark.revision && write.record == mark.record)
            && (entry.Some? ==> entry.value.revision <= write.revision)
  {
  }

  /** Completing any write leaves every dirty mark as it is: a newer mark is never lost. */
  lemma CompleteKeepsMarks(entries: Entries, write: DeviceWrite, device: DeviceId, group: Group)
    requires Coherent(entries)
    ensures var after := Complete(entries, write);
            && (device in after ==> device in entries)
            && (device in after ==> after[device].At(group).dirty == entries[device].At(group).dirty)
            && (device in after ==> after[device].record == entries[device].record)
            && (device in after ==> after[device].revision == entries[device].revision)
            && (device in entries && HasDirty(entries[device]) ==> device in after)
    ensures device in entries && device !in Complete(entries, write) ==>
              device == write.record.device &&
              (entries[device].At(group).inFlight != 0 ==>
                 write.Flags(group) && entries[device].At(group).inFlight <= write.revision)
  {
    if device in entries && device == write.record.device {
      CompletedFields(entries[device], write);
    }
  }

  /** Taking, being refused and restoring loses nothing: the next take returns the same write. */
  lemma RefusedWriteComesBack(entries: Entries, selection: Selection, device: DeviceId, at: Time)
    requires Coherent(entries) && device in entries && Selected(entries[device], selection)
    ensures var write := WriteOf(entries[device]);
            var restored := Restore(TakeMatching(entries, selection), write, at);
            && device in restored && WriteOf(restored[device]) == write
            && restored[device].markedAt == entries[device].markedAt
            && Selected(restored[device], selection)
  {
    var write := WriteOf(entries[device]);
    var taken := Dispatched(entries[device]);
    var restored := RestoreEntry(Some(taken), write, at);
    forall g: Group ensures (restored.At(g).dirty != 0) == (entries[device].At(g).dirty != 0) {
      assert restored.At(g) == RestoreField(taken.At(g), write.Flags(g), write.revision);
      assert entries[device].At(g).dirty <= entries[device].revision;
    }
    assert restored.metadata == restored.At(Metadata) && entries[device].metadata == entries[device].At(Metadata);
    assert restored.status == restored.At(Status) && entries[device].status == entries[device].At(Status);
    assert restored.telemetry == restored.At(Telemetry) && entries[device].telemetry == entries[device].At(Telemetry);
  }

  /** After the taken write completed, nothing is left of the entry unless something was marked meanwhile or in flight before. */
  lemma CompletedWriteIsGone(entry: Entry)
    requires EntryOk(entry.record.device, entry) && HasDirty(entry)
    ensures var write := WriteOf(entry);
            HasWork(CompleteEntry(Dispatched(entry), write)) <==>
              exists g: Group :: entry.At(g).inFlight != 0 && entry.At(g).dirty == 0
  {
    var write := WriteOf(entry);
    var after := CompleteEntry(Dispatched(entry), write);
    forall g: Group
      ensures FieldHasWork(after.At(g)) <==> entry.At(g).inFlight != 0 && entry.At(g).dirty == 0
    {
      assert after.At(g) == CompleteField(DispatchField(entry.At(g)), write.Flags(g), write.revision);
    }
    assert after.metadata == after.At(Metadata) && after.status == after.At(Status) && after.telemetry == after.At(Telemetry);
    if HasWork(after) {
      assert FieldHasWork(after.At(Metadata)) || FieldHasWork(after.At(Status)) || FieldHasWork(after.At(Telemetry));
    }
  }
}
