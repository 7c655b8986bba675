/** The write-behind cache as an object. */
module DirtyStateObject {
  import opened Wrappers
  import opened DeviceTypes
  import S = DirtyState

  class DirtyState {
    var entries: S.Entries

    ghost predicate Valid()
      reads this
    {
      S.Coherent(entries)
    }

    constructor ()
      ensures Valid() && entries == map[]
    {
      entries := map[];
    }

    method Mark(write: DeviceWrite, at: Time)
      modifies this
      ensures entries == S.Mark(old(entries), write, at)
      ensures old(Valid()) && S.Carries(write) ==> Valid()
    {
      var device := write.record.device;
      var inserted := device !in entries;
      var entry;
      if inserted {
        entry := S.Entry(write.record, write.revision, S.CLEAN, S.CLEAN, S.CLEAN, TelemetryBatch, at);
      } else {
        entry := entries[device];
        if write.revision >= entry.revision {
          entry := entry.(record := write.record, revision := write.revision);
        }
      }
      var telemetryWasDirty := entry.telemetry.dirty != 0;
      entry := entry.(metadata := S.MarkField(entry.metadata, write.writeMetadata, write.revision));
      entry := entry.(status := S.MarkField(entry.status, write.writeStatus, write.revision));
      entry := entry.(telemetry := S.MarkField(entry.telemetry, write.writeTelemetry, write.revision));
      if write.writeTelemetry && !telemetryWasDirty {
        entry := entry.(markedAt := at);
      }
      if write.urgency.Immediate? {
        entry := entry.(urgency := Immediate);
      }
      entries := entries[device := entry];
      if old(Valid()) && S.Carries(write) {
        S.MarkKeeps(old(entries), write, at);
      }
    }

    /** All selected entries are emptied into writes, in the order they are met. */
    method TakeMatching(selection: S.Selection) returns (result: seq<DeviceWrite>, ghost order: seq<DeviceId>)
      modifies this
      ensures entries == S.TakeMatching(old(entries), selection)
      ensures S.Visits(old(entries), selection, order) && result == S.WritesOf(old(entries), order)
      ensures old(Valid()) ==> Valid()
    {
      hide S.Coherent, S.WriteOf, S.WritesOf;
      result, order := [], [];
      assert result == S.WritesOf(old(entries), order) by {
        S.WritesOfNothing(old(entries));
      }
      var todo := entries.Keys;
      while todo != {}
        invariant todo <= old(entries).Keys == entries.Keys
        invariant forall d :: d in entries ==>
                    entries[d] == if d !in todo && S.Selected(old(entries)[d], selection)
                                  then S.Dispatched(old(entries)[d]) else old(entries)[d]
        invariant forall d :: d in order <==> d in old(entries) && d !in todo && S.Selected(old(entries)[d], selection)
        invariant forall i, j :: 0 <= i < j < |order| ==> order[i] != order[j]
        invariant result == S.WritesOf(old(entries), order)
        decreases todo
      {
        var device :| device in todo;
        todo := todo - {device};
        var entry := entries[device];
        if !S.HasDirty(entry) {
          continue;
        }
        var isImmediate := entry.urgency.Immediate?;
        var skipped := match selection
          case AllImmediate => !isImmediate
          case TelemetryDue(now, interval) => isImmediate || now - entry.markedAt < interval
          case AllDirty => false;
        if skipped {
          continue;
        }
        S.WritesOfAppend(old(entries), order, device);
        result := result + [S.WriteOf(entry)];
        order := order + [device];
        entry := entry.(metadata := S.DispatchField(entry.metadata));
        entry := entry.(status := S.DispatchField(entry.status));
        entry := entry.(telemetry := S.DispatchField(entry.telemetry));
        entry := entry.(urgency := TelemetryBatch);
        entries := entries[device := entry];
      }
      if old(Valid()) {
        S.TakeKeeps(old(entries), selection);
      }
    }

    method Complete(write: DeviceWrite)
      modifies this
      ensures entries == S.Complete(old(entries), write)
      ensures old(Valid()) ==> Valid()
    {
      var device := write.record.device;
      if device !in entries {
        return;
      }
      var entry := entries[device];
      entry := entry.(metadata := S.CompleteField(entry.metadata, write.writeMetadata, write.revision));
      entry := entry.(status := S.CompleteField(entry.status, write.writeStatus, write.revision));
      entry := entry.(telemetry := S.CompleteField(entry.telemetry, write.writeTelemetry, write.revision));
      entries := entries[device := entry];
      if !S.HasWork(entry) {
        entries := entries - {device};
      }
      if old(Valid()) {
        S.CompleteKeeps(old(entries), write);
      }
    }

    method Restore(write: DeviceWrite, at: Time)
      modifies this
      ensures entries == S.Restore(old(entries), write, at)
      ensures old(Valid()) && S.Carries(write) ==> Valid()
    {
      var device := write.record.device;
      var entry;
      if device !in entries {
        entry := S.Entry(write.record, write.revision, S.CLEAN, S.CLEAN, S.CLEAN, TelemetryBatch, at);
      } else {
        entry := entries[device];
        if write.revision >= entry.revision {
          entry := entry.(record := write.record, revision := write.revision);
        }
      }
      entry := entry.(metadata := S.RestoreField(entry.metadata, write.writeMetadata, write.revision));
      entry := entry.(status := S.RestoreField(entry.status, write.writeStatus, write.revision));
      entry := entry.(telemetry := S.RestoreField(entry.telemetry, write.writeTelemetry, write.revision));
      if write.urgency.Immediate? {
        entry := entry.(urgency := Immediate);
      }
      entries := entries[device := entry];
      if old(Valid()) && S.Carries(write) {
        S.RestoreKeeps(old(entries), write, at);
      }
    }

    method Clear()
      modifies this
      ensures entries == map[] && Valid()
    {
      entries := map[];
    }
  }
}
