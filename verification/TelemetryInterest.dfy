/** Which sessions watch which devices, as a reference count with notifications at the edges. */
module TelemetryInterest {
  type Session = string
  type Device = string

  datatype Change = Change(device: Device, interested: bool)

  // ---------------------------------------------------------------- notifications of one device

  /** What was notified about one device, in order. */
  function Heard(changes: seq<Change>, device: Device): seq<bool> {
    if changes == [] then []
    else
      var last := changes[|changes| - 1];
      Heard(changes[..|changes| - 1], device) + (if last.device == device then [last.interested] else [])
  }

  /** true, false, true, ... */
  ghost predicate Alternates(heard: seq<bool>) {
    forall i :: 0 <= i < |heard| ==> heard[i] == (i % 2 == 0)
  }

  lemma HeardMore(changes: seq<Change>, change: Change, device: Device)
    ensures Heard(changes + [change], device) ==
            Heard(changes, device) + (if change.device == device then [change.interested] else [])
  {
    assert (changes + [change])[..|changes|] == changes;
  }

  /** The set a listener ends up with that adds a device on true and removes it on false. */
  function Desired(changes: seq<Change>): set<Device> {
    if changes == [] then {}
    else
      var last := changes[|changes| - 1];
      var before := Desired(changes[..|changes| - 1]);
      if last.interested then before + {last.device} else before - {last.device}
  }

  /** A device is desired exactly when the last thing heard about it was true. */
  lemma {:induction false} DesiredIsLastHeard(changes: seq<Change>, device: Device)
    ensures var heard := Heard(changes, device);
            device in Desired(changes) <==> |heard| > 0 && heard[|heard| - 1]
  {
    if changes != [] {
      DesiredIsLastHeard(changes[..|changes| - 1], device);
    }
  }

  // ---------------------------------------------------------------- the registry

  function Watchers(devicesBySession: map<Session, set<Device>>, device: Device): set<Session> {
    set s | s in devicesBySession && device in devicesBySession[s]
  }

  function Watched(devicesBySession: map<Session, set<Device>>): set<Device> {
    set s, d | s in devicesBySession && d in devicesBySession[s] :: d
  }

  /** The count of one device is exact (one more for a device in `extra`), absent when zero, and the last notification says so. */
  ghost predicate DeviceCounted(watchers: nat, counts: map<Device, nat>, heard: seq<bool>, device: Device) {
    && (if device in counts then counts[device] == watchers && watchers > 0 else watchers == 0)
    && Alternates(heard) && (|heard| % 2 == 1 <==> device in counts)
  }

  function WatcherCount(devicesBySession: map<Session, set<Device>>, extra: set<Device>, device: Device): nat {
    |Watchers(devicesBySession, device)| + (if device in extra then 1 else 0)
  }

  ghost predicate Counted(devicesBySession: map<Session, set<Device>>, counts: map<Device, nat>, changes: seq<Change>,
                          extra: set<Device>) {
    forall d :: DeviceCounted(WatcherCount(devicesBySession, extra, d), counts, Heard(changes, d), d)
  }

  lemma LastHeard(watchers: nat, counts: map<Device, nat>, heard: seq<bool>, device: Device)
    requires DeviceCounted(watchers, counts, heard, device)
    ensures (|heard| > 0 && heard[|heard| - 1]) <==> watchers > 0
  {
  }

  lemma WatchedHaveWatchers(devicesBySession: map<Session, set<Device>>, device: Device)
    ensures device in Watched(devicesBySession) <==> |Watchers(devicesBySession, device)| > 0
  {
    if s :| s in devicesBySession && device in devicesBySession[s] {
      assert s in Watchers(devicesBySession, device);
    }
    if |Watchers(devicesBySession, device)| > 0 {
      var s :| s in Watchers(devicesBySession, device);
    }
  }

  /** What a listener wants is exactly what some session watches. */
  lemma DesiredIsWatched(devicesBySession: map<Session, set<Device>>, counts: map<Device, nat>, changes: seq<Change>)
    requires Counted(devicesBySession, counts, changes, {})
    ensures Desired(changes) == Watched(devicesBySession)
  {
    hide DeviceCounted, Watched;
    forall d ensures d in Desired(changes) <==> d in Watched(devicesBySession) {
      DesiredIsLastHeard(changes, d);
      WatchedHaveWatchers(devicesBySession, d);
      LastHeard(WatcherCount(devicesBySession, {}, d), counts, Heard(changes, d), d);
    }
  }

  lemma WatchersAfter(before: map<Session, set<Device>>, session: Session, devices: set<Device>, d: Device)
    ensures Watchers(before[session := devices], d) ==
            if d in devices then Watchers(before, d) + {session} else Watchers(before, d) - {session}
    ensures Watchers(before - {session}, d) == Watchers(before, d) - {session}
  {
  }

  lemma AlternatesMore(heard: seq<bool>, next: bool)
    requires Alternates(heard) && next == (|heard| % 2 == 0)
    ensures Alternates(heard + [next])
  {
  }

  lemma CountUp(before: map<Session, set<Device>>, counts: map<Device, nat>, changes: seq<Change>, session: Session,
                devices: set<Device>, device: Device)
    requires Counted(before, counts, changes, {})
    requires devices == (if session in before then before[session] else {}) && device !in devices
    ensures var previous := if device in counts then counts[device] else 0;
            Counted(before[session := devices + {device}], counts[device := previous + 1],
                    if previous == 0 then changes + [Change(device, true)] else changes, {})
    ensures (if device in counts then counts[device] else 0) == |Watchers(before, device)|
  {
    hide Heard, Alternates;
    var previous := if device in counts then counts[device] else 0;
    var after := before[session := devices + {device}];
    var counts' := counts[device := previous + 1];
    var changes' := if previous == 0 then changes + [Change(device, true)] else changes;
    assert DeviceCounted(WatcherCount(before, {}, device), counts, Heard(changes, device), device);
    forall d ensures DeviceCounted(WatcherCount(after, {}, d), counts', Heard(changes', d), d) {
      assert DeviceCounted(WatcherCount(before, {}, d), counts, Heard(changes, d), d);
      WatchersAfter(before, session, devices + {device}, d);
      HeardMore(changes, Change(device, true), d);
      assert Heard(changes, d) + [] == Heard(changes, d);
      if d == device && previous == 0 {
        AlternatesMore(Heard(changes, d), true);
      }
      assert session in Watchers(before, d) <==> d in devices;
    }
  }

  /** One session fewer watches the devices in `gone`; their counts have not followed yet. */
  lemma LeaveWatch(before: map<Session, set<Device>>, counts: map<Device, nat>, changes: seq<Change>, session: Session,
                   gone: set<Device>)
    requires Counted(before, counts, changes, {}) && session in before && gone <= before[session]
    ensures Counted(if before[session] == gone then before - {session} else before[session := before[session] - gone],
                    counts, changes, gone)
  {
    hide Heard, Alternates;
    var after := if before[session] == gone then before - {session} else before[session := before[session] - gone];
    forall d ensures DeviceCounted(WatcherCount(after, gone, d), counts, Heard(changes, d), d) {
      assert DeviceCounted(WatcherCount(before, {}, d), counts, Heard(changes, d), d);
      WatchersAfter(before, session, before[session] - gone, d);
      assert session in Watchers(before, d) <==> d in before[session];
    }
  }

  lemma CountDown(devicesBySession: map<Session, set<Device>>, counts: map<Device, nat>, changes: seq<Change>,
                  extra: set<Device>, device: Device)
    requires Counted(devicesBySession, counts, changes, extra) && device in extra
    ensures device in counts && counts[device] == |Watchers(devicesBySession, device)| + 1
    ensures if counts[device] > 1
            then Counted(devicesBySession, counts[device := counts[device] - 1], changes, extra - {device})
            else Counted(devicesBySession, counts - {device}, changes + [Change(device, false)], extra - {device})
  {
    hide Heard;
    assert DeviceCounted(WatcherCount(devicesBySession, extra, device), counts, Heard(changes, device), device);
    var counts' := if counts[device] > 1 then counts[device := counts[device] - 1] else counts - {device};
    var changes' := if counts[device] > 1 then changes else changes + [Change(device, false)];
    forall d ensures DeviceCounted(WatcherCount(devicesBySession, extra - {device}, d), counts', Heard(changes', d), d) {
      assert DeviceCounted(WatcherCount(devicesBySession, extra, d), counts, Heard(changes, d), d);
      HeardMore(changes, Change(device, false), d);
    }
  }

  class TelemetryInterestRegistry {
    var devicesBySession: map<Session, set<Device>>
    var sessionCounts: map<Device, nat>
    /** Every call of the listener. */
    var changes: seq<Change>

    ghost predicate Valid()
      reads this
    {
      && Counted(devicesBySession, sessionCounts, changes, {})
      && (forall s :: s in devicesBySession ==> devicesBySession[s] != {})
    }

    constructor ()
      ensures Valid() && devicesBySession == map[] && changes == []
    {
      devicesBySession, sessionCounts, changes := map[], map[], [];
    }

    function DevicesOf(session: Session): set<Device>
      reads this
    {
      if session in devicesBySession then devicesBySession[session] else {}
    }

    method Subscribe(session: Session, device: Device)
      requires Valid()
      modifies this
      ensures Valid() && old(changes) <= changes
      ensures DevicesOf(session) == old(DevicesOf(session)) + {device}
      ensures forall s :: s != session ==> DevicesOf(s) == old(DevicesOf(s))
      ensures changes == if Watchers(old(devicesBySession), device) == {} then old(changes) + [Change(device, true)]
                         else old(changes)
    {
      hide Counted;
      var devices := if session in devicesBySession then devicesBySession[session] else {};
      if device in devices {
        assert session in Watchers(devicesBySession, device);
        return;
      }
      CountUp(devicesBySession, sessionCounts, changes, session, devices, device);
      devicesBySession := devicesBySession[session := devices + {device}];
      var previous := if device in sessionCounts then sessionCounts[device] else 0;
      sessionCounts := sessionCounts[device := previous + 1];
      if previous == 0 {
        changes := changes + [Change(device, true)];
      }
    }

    method Unsubscribe(session: Session, device: Device)
      requires Valid()
      modifies this
      ensures Valid() && old(changes) <= changes
      ensures DevicesOf(session) == old(DevicesOf(session)) - {device}
      ensures forall s :: s != session ==> DevicesOf(s) == old(DevicesOf(s))
      ensures changes == if Watchers(old(devicesBySession), device) == {session} then old(changes) + [Change(device, false)]
                         else old(changes)
    {
      if session !in devicesBySession || device !in devicesBySession[session] {
        assert session !in Watchers(devicesBySession, device);
        return;
      }
      hide Counted;
      var devices := devicesBySession[session] - {device};
      LeaveWatch(devicesBySession, sessionCounts, changes, session, {device});
      WatchersAfter(devicesBySession, session, devices, device);
      assert session in Watchers(devicesBySession, device);
      assert devices == {} <==> devicesBySession[session] == {device};
      devicesBySession := if devices == {} then devicesBySession - {session} else devicesBySession[session := devices];
      Decrement(device, {device});
    }

    /** The caller has already taken one watcher of the device away. */
    method Decrement(device: Device, ghost extra: set<Device>)
      requires Counted(devicesBySession, sessionCounts, changes, extra) && device in extra
      modifies this`sessionCounts, this`changes
      ensures Counted(devicesBySession, sessionCounts, changes, extra - {device})
      ensures changes == if Watchers(devicesBySession, device) == {} then old(changes) + [Change(device, false)]
                         else old(changes)
    {
      CountDown(devicesBySession, sessionCounts, changes, extra, device);
      hide Counted;
      var previous := sessionCounts[device];
      if previous > 1 {
        sessionCounts := sessionCounts[device := previous - 1];
        return;
      }
      sessionCounts := sessionCounts - {device};
      changes := changes + [Change(device, false)];
    }

    method RemoveSession(session: Session)
      requires Valid()
      modifies this
      ensures Valid() && old(changes) <= changes
      ensures DevicesOf(session) == {} && forall s :: s != session ==> DevicesOf(s) == old(DevicesOf(s))
    {
      if session !in devicesBySession {
        return;
      }
      hide Counted;
      var todo := devicesBySession[session];
      LeaveWatch(devicesBySession, sessionCounts, changes, session, todo);
      devicesBySession := devicesBySession - {session};
      while todo != {}
        invariant Counted(devicesBySession, sessionCounts, changes, todo)
        invariant devicesBySession == old(devicesBySession) - {session} && old(changes) <= changes
        decreases todo
      {
        var device :| device in todo;
        Decrement(device, todo);
        todo := todo - {device};
      }
    }

    function IsInterested(session: Session, device: Device): (interested: bool)
      reads this
      ensures interested <==> session in Watchers(devicesBySession, device)
    {
      session in devicesBySession && device in devicesBySession[session]
    }
  }
}
