/**
 Everything the pipeline holds about one device, from the directory to the database row, and what
 every step keeps about it.
 */
module DeviceSlices {
  import opened Wrappers
  import opened DeviceTypes
  import R = DeviceRegistry
  import S = DirtyState
  import W = PostgresWorker
  import V = DeviceService

  /** A revision per column group. */
  datatype Marks = Marks(metadata: nat, status: nat, telemetry: nat)
  {
    function At(group: Group): nat {
      match group
      case Metadata => metadata
      case Status => status
      case Telemetry => telemetry
    }
  }

  /** The stored columns, the revision each group was last written with, and the newest of them. */
  datatype Row = Row(record: DeviceRecord, written: Marks, newest: nat)

  /** `flagged` is the revision each group was last flagged at. `lost` says a write was refused for good or cancelled. */
  datatype Slice = Slice(
    registered: Option<DeviceRecord>,
    entry: Option<S.Entry>,
    startup: Option<DeviceWrite>,
    queued: Option<DeviceWrite>,
    executing: Option<DeviceWrite>,
    row: Option<Row>,
    flagged: Marks,
    degraded: Option<nat>,
    lost: bool,
    accepting: bool)

  // ---------------------------------------------------------------- table and marks

  function FlaggedBy(flagged: Marks, mutation: R.Mutation): Marks {
    var revision := mutation.record.revision;
    Marks(if R.Flagged(mutation, Metadata) then revision else flagged.metadata,
          if R.Flagged(mutation, Status) then revision else flagged.status,
          if R.Flagged(mutation, Telemetry) then revision else flagged.telemetry)
  }

  /** The update statements of a device write: only the flagged columns are set. */
  function Stored(row: Row, write: DeviceWrite): Row {
    var r := write.record;
    var metadata := if write.writeMetadata
      then row.record.(dcdwLabel := r.dcdwLabel, capabilities := r.capabilities, product := r.product, version := r.version)
      else row.record;
    var status := if write.writeStatus then metadata.(status := r.status, lastSeen := r.lastSeen) else metadata;
    var all := if write.writeTelemetry then status.(telemetry := r.telemetry, telemetryAt := r.telemetryAt) else status;
    Row(all,
        Marks(if write.writeMetadata then write.revision else row.written.metadata,
              if write.writeStatus then write.revision else row.written.status,
              if write.writeTelemetry then write.revision else row.written.telemetry),
        write.revision)
  }

  lemma StoredGroups(row: Row, write: DeviceWrite)
    ensures forall g: Group ::
              Stored(row, write).written.At(g) == (if write.Flags(g) then write.revision else row.written.At(g)) &&
              ContentOf(Stored(row, write).record, g) == ContentOf(if write.Flags(g) then write.record else row.record, g)
    ensures Stored(row, write).record.lastSeen == if write.writeStatus then write.record.lastSeen else row.record.lastSeen
  {
  }

  // ---------------------------------------------------------------- the invariant of a slice

  /** A record of that revision has the directory's content in every group not flagged since. */
  ghost predicate Honest(s: Slice, revision: nat, record: DeviceRecord) {
    s.registered.Some? &&
    forall g: Group :: revision >= s.flagged.At(g) ==> ContentOf(record, g) == ContentOf(s.registered.value, g)
  }

  ghost predicate WriteOk(s: Slice, write: DeviceWrite) {
    s.registered.Some? && write.record.device == s.registered.value.device &&
    write.revision <= s.registered.value.revision && Honest(s, write.revision, write.record)
  }

  predicate Carries(s: Slice, write: Option<DeviceWrite>, group: Group) {
    write.Some? && write.value.Flags(group) && write.value.revision >= s.flagged.At(group)
  }

  predicate InRow(s: Slice, group: Group) {
    s.row.Some? && s.row.value.written.At(group) >= s.flagged.At(group)
  }

  predicate InEntry(s: Slice, group: Group) {
    s.entry.Some? && s.entry.value.At(group).dirty != 0 && s.entry.value.revision >= s.flagged.At(group)
  }

  /** The last flagged content of the group is stored, or some place still holds it with the flag set. */
  predicate Covered(s: Slice, group: Group) {
    InRow(s, group) || InEntry(s, group) || Carries(s, s.queued, group) || Carries(s, s.executing, group) ||
    Carries(s, s.startup, group)
  }

  /** What a queued write does not carry is already further along. */
  ghost predicate QueuedSettled(s: Slice) {
    s.queued.Some? ==>
      forall g: Group :: !s.queued.value.Flags(g) && s.flagged.At(g) <= s.queued.value.revision ==>
        InRow(s, g) || Carries(s, s.executing, g)
  }

  ghost predicate ExecutingSettled(s: Slice) {
    s.executing.Some? ==>
      forall g: Group :: !s.executing.value.Flags(g) && s.flagged.At(g) <= s.executing.value.revision ==> InRow(s, g)
  }

  /** Later places never hold an older revision. */
  ghost predicate Ordered(s: Slice) {
    && (s.row.Some? && s.executing.Some? ==> s.row.value.newest <= s.executing.value.revision)
    && (s.row.Some? && s.queued.Some? ==> s.row.value.newest <= s.queued.value.revision)
    && (s.executing.Some? && s.queued.Some? ==> s.executing.value.revision <= s.queued.value.revision)
  }

  /** A start-up write waits only while its device is as the start-up expiry left it. */
  ghost predicate StartupOk(s: Slice) {
    s.startup.Some? ==>
      && s.startup.value.revision == 1 && s.startup.value.Flags(Status)
      && s.flagged.metadata == 0 && s.flagged.telemetry == 0
      && s.registered.Some? && s.registered.value.revision == 1 && s.registered.value.status.Offline?
      && (s.accepting ==> s.entry.None?)
  }

  ghost predicate RowOk(s: Slice) {
    s.row.Some? && s.registered.Some? ==>
      && s.row.value.newest <= s.registered.value.revision
      && (forall g: Group :: s.row.value.written.At(g) <= s.row.value.newest)
      && (forall g: Group :: InRow(s, g) ==> ContentOf(s.row.value.record, g) == ContentOf(s.registered.value, g))
  }

  ghost predicate Unregistered(s: Slice) {
    s.entry.None? && s.startup.None? && s.queued.None? && s.executing.None? && s.degraded.None? &&
    s.flagged == Marks(0, 0, 0) && !s.lost && (s.row.Some? ==> s.row.value.written == Marks(0, 0, 0) && s.row.value.newest == 0)
  }

  ghost predicate Basics(s: Slice) {
    && s.registered.Some? && s.row.Some?
    && (forall g: Group :: s.flagged.At(g) <= s.registered.value.revision)
    && (s.registered.value.telemetry.None? ==> s.flagged.telemetry == 0)
    && (forall g: Group :: s.entry.Some? ==> s.entry.value.At(g).dirty <= s.entry.value.revision)
    && (s.entry.Some? && s.accepting ==> s.entry.value.revision == s.registered.value.revision)
    && (s.degraded.Some? ==> s.degraded.value >= s.registered.value.revision)
  }

  ghost predicate WritesOk(s: Slice) {
    && (s.startup.Some? ==> WriteOk(s, s.startup.value))
    && (s.queued.Some? ==> WriteOk(s, s.queued.value))
    && (s.executing.Some? ==> WriteOk(s, s.executing.value))
    && (s.entry.Some? ==> WriteOk(s, S.WriteOf(s.entry.value)))
  }

  ghost predicate NothingLost(s: Slice) {
    !s.lost ==> (forall g: Group :: Covered(s, g)) && QueuedSettled(s) && ExecutingSettled(s)
  }

  ghost predicate SliceOk(s: Slice) {
    if s.registered.None? then Unregistered(s)
    else Basics(s) && RowOk(s) && Ordered(s) && StartupOk(s) && WritesOk(s) && NothingLost(s)
  }

  /** A completed write of that revision left everything flagged by then in the row. */
  ghost predicate CompletionOk(s: Slice, revision: nat) {
    s.registered.Some? && revision <= s.registered.value.revision &&
    (!s.lost ==> forall g: Group :: s.flagged.At(g) <= revision ==> InRow(s, g))
  }

  /** Nothing goes back: revisions, flags, stored groups. */
  ghost predicate Advances(s: Slice, t: Slice) {
    && (s.lost ==> t.lost)
    && (s.registered.Some? ==> t.registered.Some? && s.registered.value.revision <= t.registered.value.revision)
    && (s.row.Some? ==> t.row.Some? && s.row.value.newest <= t.row.value.newest)
    && (s.row.Some? && t.registered.None? ==> t.row == s.row)
    && (forall g: Group :: s.row.Some? ==> s.row.value.written.At(g) <= t.row.value.written.At(g))
    && (forall g: Group :: t.flagged.At(g) == s.flagged.At(g) ||
                           (s.registered.Some? && t.flagged.At(g) > s.registered.value.revision))
  }

  lemma CompletionStays(s: Slice, t: Slice, revision: nat)
    requires Advances(s, t) && CompletionOk(s, revision)
    ensures CompletionOk(t, revision)
  {
    forall g: Group | t.flagged.At(g) <= revision && !t.lost ensures InRow(t, g) {
      assert InRow(s, g);
    }
  }

  /** Nothing left to do for the device: its row has the directory's metadata, status and telemetry. */
  lemma QuietMeansEqual(s: Slice)
    requires SliceOk(s) && !s.lost && s.registered.Some?
    requires s.startup.None? && s.queued.None? && s.executing.None? && (s.entry.Some? ==> !S.HasDirty(s.entry.value))
    ensures forall g: Group :: ContentOf(s.row.value.record, g) == ContentOf(s.registered.value, g)
  {
    forall g: Group ensures ContentOf(s.row.value.record, g) == ContentOf(s.registered.value, g) {
      assert Covered(s, g);
    }
  }

  /** A write completed at the directory's revision or later: the row has the directory's content. */
  lemma CompletedMeansEqual(s: Slice, revision: nat)
    requires SliceOk(s) && !s.lost && CompletionOk(s, revision) && revision >= s.registered.value.revision
    ensures forall g: Group :: ContentOf(s.row.value.record, g) == ContentOf(s.registered.value, g)
  {
    forall g: Group ensures InRow(s, g) {
      assert s.flagged.At(g) <= revision;
    }
  }

  // ---------------------------------------------------------------- business steps

  /** The directory moved on and the mutation was marked. */
  function Mutated(s: Slice, mutation: R.Mutation, degraded: Option<nat>, at: Time): Slice {
    s.(registered := Some(mutation.record),
       entry := Some(S.MarkEntry(s.entry, V.WriteFor(mutation), at)),
       flagged := FlaggedBy(s.flagged, mutation),
       degraded := degraded)
  }

  lemma WriteForFlags(mutation: R.Mutation)
    ensures forall g: Group :: V.WriteFor(mutation).Flags(g) == R.Flagged(mutation, g)
    ensures forall f: Marks, g: Group ::
              FlaggedBy(f, mutation).At(g) == if R.Flagged(mutation, g) then mutation.record.revision else f.At(g)
  {
  }

  ghost predicate Mutates(s: Slice, mutation: R.Mutation) {
    && s.startup.None? && s.registered.Some? && R.Advances(s.registered.value, mutation)
    && (mutation.record.telemetry.None? ==> s.registered.value.telemetry.None? && !mutation.reason.TelemetryReceived?)
    && (mutation.reason.TelemetryReceived? ==> mutation.record.status.Online?)
  }

  lemma MutatedHonest(s: Slice, mutation: R.Mutation, degraded: Option<nat>, at: Time, write: DeviceWrite)
    requires Mutates(s, mutation) && WriteOk(s, write)
    ensures WriteOk(Mutated(s, mutation, degraded, at), write)
  {
    WriteForFlags(mutation);
  }

  lemma MutatedWrites(s: Slice, mutation: R.Mutation, degraded: Option<nat>, at: Time)
    requires Mutates(s, mutation) && Basics(s) && WritesOk(s)
    ensures WritesOk(Mutated(s, mutation, degraded, at))
  {
    hide WriteOk, R.Advances;
    var t := Mutated(s, mutation, degraded, at);
    if s.queued.Some? {
      MutatedHonest(s, mutation, degraded, at, s.queued.value);
    }
    if s.executing.Some? {
      MutatedHonest(s, mutation, degraded, at, s.executing.value);
    }
    assert WriteOk(t, S.WriteOf(t.entry.value)) by {
      MutatedEntry(s, mutation, degraded, at);
    }
  }

  lemma MutatedEntry(s: Slice, mutation: R.Mutation, degraded: Option<nat>, at: Time)
    requires Mutates(s, mutation) && Basics(s) && (s.entry.Some? ==> WriteOk(s, S.WriteOf(s.entry.value)))
    ensures var t := Mutated(s, mutation, degraded, at);
            && t.entry.value.revision == mutation.record.revision && t.entry.value.record == mutation.record
            && WriteOk(t, S.WriteOf(t.entry.value))
            && (forall g: Group :: t.entry.value.At(g).dirty <= mutation.record.revision)
            && (forall g: Group :: R.Flagged(mutation, g) ==> t.entry.value.At(g).dirty != 0)
            && (forall g: Group :: s.entry.Some? && s.entry.value.At(g).dirty != 0 ==> t.entry.value.At(g).dirty != 0)
  {
    S.MarkedFields(s.entry, V.WriteFor(mutation), at);
    S.RefreshedAt(s.entry, V.WriteFor(mutation), at);
    WriteForFlags(mutation);
  }

  lemma MutatedCovers(s: Slice, mutation: R.Mutation, degraded: Option<nat>, at: Time)
    requires Mutates(s, mutation) && Basics(s) && WritesOk(s) && NothingLost(s)
    ensures NothingLost(Mutated(s, mutation, degraded, at))
  {
    var t := Mutated(s, mutation, degraded, at);
    MutatedEntry(s, mutation, degraded, at);
    WriteForFlags(mutation);
    hide WriteOk, R.Flagged, S.MarkEntry, FlaggedBy;
    forall g: Group | !s.lost ensures Covered(t, g) {
      assert Covered(s, g);
      if R.Flagged(mutation, g) {
        assert InEntry(t, g);
      }
    }
    assert s.queued.Some? ==> s.queued.value.revision < mutation.record.revision by {
      assert s.queued.Some? ==> WriteOk(s, s.queued.value);
    }
    assert s.executing.Some? ==> s.executing.value.revision < mutation.record.revision by {
      assert s.executing.Some? ==> WriteOk(s, s.executing.value);
    }
  }

  lemma MutatedRow(s: Slice, mutation: R.Mutation, degraded: Option<nat>, at: Time)
    requires Mutates(s, mutation) && Basics(s) && RowOk(s)
    ensures RowOk(Mutated(s, mutation, degraded, at))
    ensures Advances(s, Mutated(s, mutation, degraded, at))
  {
    WriteForFlags(mutation);
  }

  lemma MutatedOk(s: Slice, mutation: R.Mutation, degraded: Option<nat>, at: Time)
    requires SliceOk(s) && Mutates(s, mutation)
    requires degraded.Some? ==> degraded.value >= mutation.record.revision
    ensures SliceOk(Mutated(s, mutation, degraded, at)) && Advances(s, Mutated(s, mutation, degraded, at))
  {
    MutatedRow(s, mutation, degraded, at);
    MutatedCovers(s, mutation, degraded, at);
    MutatedWrites(s, mutation, degraded, at);
    MutatedEntry(s, mutation, degraded, at);
    WriteForFlags(mutation);
    hide RowOk, NothingLost, WritesOk, Advances, S.MarkEntry;
  }

  /** The worker's pending write after one more was merged into it. */
  function Queue(queued: Option<DeviceWrite>, write: DeviceWrite): DeviceWrite {
    if queued.Some? then W.Merge(queued.value, write) else write
  }

  lemma MergedFlags(queued: Option<DeviceWrite>, write: DeviceWrite)
    ensures var merged := Queue(queued, write);
            && (forall g: Group :: merged.Flags(g) <==> (queued.Some? && queued.value.Flags(g)) || write.Flags(g))
            && merged.revision == (if queued.Some? then S.Max(queued.value.revision, write.revision) else write.revision)
            && ((merged.record == write.record && merged.revision == write.revision) ||
                (queued.Some? && merged.record == queued.value.record && merged.revision == queued.value.revision))
  {
  }

  lemma QueueHonest(s: Slice, write: DeviceWrite)
    requires WriteOk(s, write) && (s.queued.Some? ==> WriteOk(s, s.queued.value))
    ensures WriteOk(s, Queue(s.queued, write))
  {
    MergedFlags(s.queued, write);
  }

  /** The same record with some dirty marks taken off. */
  ghost predicate LessDirty(a: S.Entry, b: S.Entry) {
    a.revision == b.revision && a.record == b.record &&
    forall g: Group :: a.At(g).dirty == 0 || a.At(g).dirty == b.At(g).dirty
  }

  /** A write at the directory's revision joins the queue; what it does not carry is elsewhere on its way. */
  lemma EnqueuedOk(s: Slice, write: DeviceWrite, entry: Option<S.Entry>)
    requires SliceOk(s) && WriteOk(s, write) && write.revision == s.registered.value.revision
    requires entry.Some? ==> s.entry.Some? && LessDirty(entry.value, s.entry.value)
    requires forall g: Group :: !write.Flags(g) ==>
               (s.entry.Some? && s.entry.value.At(g).dirty != 0 ==> entry.Some? && entry.value.At(g).dirty != 0)
    requires forall g: Group :: !write.Flags(g) && !s.lost ==>
               InRow(s, g) || Carries(s, s.queued, g) || Carries(s, s.executing, g)
    ensures SliceOk(s.(queued := Some(Queue(s.queued, write)), entry := entry))
    ensures Advances(s, s.(queued := Some(Queue(s.queued, write)), entry := entry))
  {
    var t := s.(queued := Some(Queue(s.queued, write)), entry := entry);
    MergedFlags(s.queued, write);
    QueueHonest(s, write);
    assert WritesOk(t) && RowOk(t) && Ordered(t) && StartupOk(t);
    hide WriteOk, RowOk, StartupOk;
    if !s.lost {
      forall g: Group ensures Covered(t, g) {
        assert Covered(s, g);
        if write.Flags(g) {
          assert Carries(t, t.queued, g);
        }
      }
      forall g: Group | !t.queued.value.Flags(g) ensures InRow(t, g) || Carries(t, t.executing, g) {
        assert !write.Flags(g);
      }
    }
  }

  /** The dirty entry was taken and its write accepted. */
  function DispatchedSlice(s: Slice): Slice
    requires s.entry.Some?
  {
    s.(queued := Some(Queue(s.queued, S.WriteOf(s.entry.value))), entry := Some(S.Dispatched(s.entry.value)))
  }

  lemma WriteOfFlags(entry: S.Entry)
    ensures forall g: Group :: S.WriteOf(entry).Flags(g) <==> entry.At(g).dirty != 0
  {
  }

  lemma DispatchedOk(s: Slice)
    requires SliceOk(s) && s.entry.Some? && s.accepting && S.HasDirty(s.entry.value)
    ensures SliceOk(DispatchedSlice(s)) && Advances(s, DispatchedSlice(s))
  {
    var entry := s.entry.value;
    var write := S.WriteOf(entry);
    WriteOfFlags(entry);
    S.DispatchedFields(entry);
    S.WorkByGroup(entry);
    assert s.startup.None? && WriteOk(s, write);
    forall g: Group | !write.Flags(g) && !s.lost
      ensures InRow(s, g) || Carries(s, s.queued, g) || Carries(s, s.executing, g)
    {
      assert Covered(s, g);
      assert !InEntry(s, g);
    }
    hide SliceOk, S.WriteOf, S.Dispatched;
    EnqueuedHelp(s, write, S.Dispatched(entry));
  }

  lemma EnqueuedHelp(s: Slice, write: DeviceWrite, entry: S.Entry)
    requires SliceOk(s) && WriteOk(s, write) && s.entry.Some? && write.revision == s.registered.value.revision
    requires entry.revision == s.entry.value.revision && entry.record == s.entry.value.record
    requires forall g: Group :: entry.At(g).dirty == 0
    requires forall g: Group :: write.Flags(g) <==> s.entry.value.At(g).dirty != 0
    requires forall g: Group :: !write.Flags(g) && !s.lost ==>
               InRow(s, g) || Carries(s, s.queued, g) || Carries(s, s.executing, g)
    ensures SliceOk(s.(queued := Some(Queue(s.queued, write)), entry := Some(entry)))
    ensures Advances(s, s.(queued := Some(Queue(s.queued, write)), entry := Some(entry)))
  {
    hide SliceOk;
    EnqueuedOk(s, write, Some(entry));
  }

  /** A full write of the directory's record was accepted. */
  lemma FullQueuedOk(s: Slice, write: DeviceWrite)
    requires SliceOk(s) && s.registered.Some? && write.record == s.registered.value
    requires write.revision == write.record.revision && write.writeMetadata && write.writeStatus
    requires write.writeTelemetry == write.record.telemetry.Some?
    ensures SliceOk(s.(queued := Some(Queue(s.queued, write)))) && Advances(s, s.(queued := Some(Queue(s.queued, write))))
  {
    if s.entry.Some? {
    }
    forall g: Group | !write.Flags(g) ensures g == Group.Telemetry && InRow(s, g) {
    }
    EnqueuedOk(s, write, s.entry);
  }

  // ---------------------------------------------------------------- refused submissions

  /** What restoring may start from: the entry, or the entry without the marks of the refused write. */
  ghost predicate TakenFor(taken: Option<S.Entry>, entry: Option<S.Entry>, write: DeviceWrite) {
    && (taken.Some? <==> entry.Some?)
    && (taken.Some? ==> LessDirty(taken.value, entry.value))
    && (taken.Some? ==> forall g: Group :: taken.value.At(g).dirty != entry.value.At(g).dirty ==>
          write.Flags(g) && write.revision == entry.value.revision)
  }

  lemma RestoredEntry(entry: Option<S.Entry>, write: DeviceWrite, taken: Option<S.Entry>, at: Time)
    requires TakenFor(taken, entry, write)
    requires entry.Some? ==> forall g: Group :: entry.value.At(g).dirty <= entry.value.revision
    ensures var e := S.RestoreEntry(taken, write, at);
            && (forall g: Group :: e.At(g).dirty <= e.revision)
            && (entry.Some? ==> e.revision >= entry.value.revision)
            && (forall g: Group :: entry.Some? && entry.value.At(g).dirty != 0 ==> e.At(g).dirty != 0)
            && ((e.record == write.record && e.revision == write.revision) ||
                (entry.Some? && e.record == entry.value.record && e.revision == entry.value.revision))
  {
    S.RestoredFields(taken, write, at);
    S.RefreshedAt(taken, write, at);
  }

  /** A refused write went back into the cache; the worker accepts nothing any more. */
  lemma RestoredOk(s: Slice, write: DeviceWrite, taken: Option<S.Entry>, at: Time, degraded: nat)
    requires SliceOk(s) && s.registered.Some? && WriteOk(s, write) && !s.accepting && degraded >= s.registered.value.revision
    requires TakenFor(taken, s.entry, write)
    ensures var t := s.(entry := Some(S.RestoreEntry(taken, write, at)), degraded := Some(degraded));
            SliceOk(t) && Advances(s, t)
  {
    var e := S.RestoreEntry(taken, write, at);
    var t := s.(entry := Some(e), degraded := Some(degraded));
    RestoredEntry(s.entry, write, taken, at);
    assert RowOk(t) && Ordered(t) && StartupOk(t) && Basics(t);
    assert WritesOk(t) by {
      hide S.RestoreEntry;
      assert S.WriteOf(e).record == e.record;
    }
    hide S.RestoreEntry, WriteOk, RowOk, StartupOk, Ordered;
    assert forall g: Group :: InEntry(s, g) ==> InEntry(t, g);
    forall g: Group | !s.lost ensures Covered(t, g) {
      assert Covered(s, g);
    }
  }

  // ---------------------------------------------------------------- the database thread

  lemma TakenOk(s: Slice)
    requires SliceOk(s) && s.queued.Some? && s.executing.None?
    ensures var t := s.(executing := s.queued, queued := None);
            SliceOk(t) && Advances(s, t)
  {
    var t := s.(executing := s.queued, queued := None);
    assert RowOk(t) && Ordered(t) && StartupOk(t) && Basics(t) && WritesOk(t);
    forall g: Group | !s.lost ensures Covered(t, g) {
      assert Covered(s, g);
    }
  }

  /** The executing write reached the table. */
  function Written(s: Slice): Slice
    requires s.row.Some? && s.executing.Some?
  {
    s.(row := Some(Stored(s.row.value, s.executing.value)))
  }

  lemma WrittenOk(s: Slice)
    requires SliceOk(s) && s.executing.Some?
    ensures SliceOk(Written(s)) && Advances(s, Written(s))
    ensures Written(s).row.value.newest == s.executing.value.revision
    ensures forall g: Group :: Carries(s, s.executing, g) ==> InRow(Written(s), g)
    ensures forall g: Group :: s.flagged.At(g) <= s.executing.value.revision && !s.lost ==> InRow(Written(s), g)
  {
    var t := Written(s);
    StoredGroups(s.row.value, s.executing.value);
    assert WriteOk(s, s.executing.value);
    assert RowOk(t) && Ordered(t) && StartupOk(t) && Basics(t) && WritesOk(t);
    forall g: Group | !s.lost ensures Covered(t, g) {
      assert Covered(s, g);
    }
  }

  /** Every group of the executing write that is up to date is in the row: it may be forgotten. */
  lemma FinishedOk(s: Slice)
    requires SliceOk(s) && s.executing.Some?
    requires forall g: Group :: Carries(s, s.executing, g) ==> InRow(s, g)
    ensures SliceOk(s.(executing := None)) && Advances(s, s.(executing := None))
  {
    var t := s.(executing := None);
    assert RowOk(t) && Ordered(t) && StartupOk(t) && Basics(t) && WritesOk(t);
    forall g: Group | !s.lost ensures Covered(t, g) {
      assert Covered(s, g);
    }
  }

  /** An outage put the executing write back into the queue. */
  lemma RequeuedOk(s: Slice)
    requires SliceOk(s) && s.executing.Some?
    ensures var t := s.(executing := None, queued := Some(Queue(s.queued, s.executing.value)));
            SliceOk(t) && Advances(s, t)
  {
    var t := s.(executing := None, queued := Some(Queue(s.queued, s.executing.value)));
    MergedFlags(s.queued, s.executing.value);
    QueueHonest(s, s.executing.value);
    assert RowOk(t) && Ordered(t) && StartupOk(t) && Basics(t) && WritesOk(t);
    hide WriteOk, RowOk, StartupOk;
    forall g: Group | !s.lost ensures Covered(t, g) {
      assert Covered(s, g);
    }
    forall g: Group | !s.lost && !t.queued.value.Flags(g) && t.flagged.At(g) <= t.queued.value.revision
      ensures InRow(t, g)
    {
      assert !s.executing.value.Flags(g);
    }
  }

  predicate KeptOrGone<T(==)>(a: Option<T>, b: Option<T>) {
    b == a || b.None?
  }

  /** Some writes of the device were dropped for good. */
  predicate Forgets(s: Slice, t: Slice) {
    t.lost && KeptOrGone(s.entry, t.entry) && KeptOrGone(s.startup, t.startup) && KeptOrGone(s.queued, t.queued) &&
    KeptOrGone(s.executing, t.executing) &&
    t == s.(lost := true, entry := t.entry, startup := t.startup, queued := t.queued, executing := t.executing)
  }

  lemma LostOk(s: Slice, t: Slice)
    requires SliceOk(s) && s.registered.Some? && Forgets(s, t)
    ensures SliceOk(t) && Advances(s, t)
  {
    hide Covered;
    assert RowOk(t);
    hide RowOk;
    assert Basics(t) && Ordered(t);
    hide Basics, Ordered;
    assert WritesOk(t);
    hide WritesOk;
    assert StartupOk(t);
  }

  // ---------------------------------------------------------------- start-up, completion, provisioning

  /** A start-up write that waits is as new as anything else of its device. */
  lemma StartupIsNewest(s: Slice)
    requires SliceOk(s) && s.startup.Some?
    ensures s.registered.value.revision == s.startup.value.revision
    ensures s.row.Some? && s.row.value.newest <= s.startup.value.revision
    ensures s.executing.Some? ==> s.executing.value.revision <= s.startup.value.revision
    ensures s.queued.Some? ==> s.queued.value.revision <= s.startup.value.revision
  {
    assert WritesOk(s);
  }

  function StartupQueued(s: Slice): Slice
    requires s.startup.Some?
  {
    s.(startup := None, queued := Some(Queue(s.queued, s.startup.value)))
  }

  /** Queueing a start-up write loses no flag and reverses no revision. */
  lemma StartupQueuedOk(s: Slice)
    requires SliceOk(s) && s.startup.Some?
    ensures SliceOk(StartupQueued(s)) && Advances(s, StartupQueued(s))
  {
    var t := StartupQueued(s);
    var write := s.startup.value;
    MergedFlags(s.queued, write);
    QueueHonest(s, write);
    StartupIsNewest(s);
    assert RowOk(t) && StartupOk(t) && Basics(t) && WritesOk(t) && Ordered(t);
    hide WriteOk, RowOk, WritesOk;
    forall g: Group | !s.lost ensures Covered(t, g) {
      assert Covered(s, g);
      if Carries(s, s.startup, g) {
        assert Carries(t, t.queued, g);
      }
    }
    StartupSettled(s);
  }

  lemma StartupSettled(s: Slice)
    requires SliceOk(s) && s.startup.Some?
    ensures !s.lost ==> QueuedSettled(StartupQueued(s)) && ExecutingSettled(StartupQueued(s))
  {
    var t := StartupQueued(s);
    var write := s.startup.value;
    MergedFlags(s.queued, write);
    hide WriteOk, RowOk, WritesOk;
    forall g: Group | !s.lost && !t.queued.value.Flags(g) ensures InRow(t, g) {
      assert !write.Flags(g) && g != Status;
      assert s.flagged.At(g) == 0;
    }
  }

  lemma CompletedOk(s: Slice, write: DeviceWrite)
    requires SliceOk(s) && s.entry.Some?
    ensures var e := S.CompleteEntry(s.entry.value, write);
            var t := s.(entry := if S.HasWork(e) then Some(e) else None);
            SliceOk(t) && Advances(s, t)
  {
    var e := S.CompleteEntry(s.entry.value, write);
    var t := s.(entry := if S.HasWork(e) then Some(e) else None);
    S.CompletedFields(s.entry.value, write);
    S.WorkByGroup(e);
    assert RowOk(t) && Ordered(t) && StartupOk(t) && Basics(t) && WritesOk(t);
    hide S.CompleteEntry, S.HasWork, WriteOk, RowOk, StartupOk, Ordered, Basics;
    forall g: Group | !s.lost ensures Covered(t, g) {
      assert Covered(s, g);
      if InEntry(s, g) {
        assert S.FieldHasWork(e.At(g));
      }
    }
  }

  lemma DegradedOk(s: Slice, degraded: Option<nat>)
    requires SliceOk(s) && s.registered.Some? && (degraded.Some? ==> degraded.value >= s.registered.value.revision)
    ensures SliceOk(s.(degraded := degraded)) && Advances(s, s.(degraded := degraded))
  {
    var t := s.(degraded := degraded);
    forall g: Group | Covered(s, g) ensures Covered(t, g) {
    }
  }

  lemma ClosedOk(s: Slice)
    requires SliceOk(s)
    ensures SliceOk(s.(accepting := false)) && Advances(s, s.(accepting := false))
  {
    var t := s.(accepting := false);
    forall g: Group | Covered(s, g) ensures Covered(t, g) {
    }
  }

  /** The device entered the directory with the record its row holds. */
  lemma AddedOk(s: Slice, record: DeviceRecord)
    requires SliceOk(s) && s.registered.None? && s.row.Some? && s.row.value.record == record
    ensures SliceOk(s.(registered := Some(record))) && Advances(s, s.(registered := Some(record)))
  {
    var t := s.(registered := Some(record));
    forall g: Group ensures InRow(t, g) {
    }
  }
}
