/** The registry's notifications delivered to the subscription controller. */
module InterestDelivery {
  import opened TelemetryInterest
  import opened RealtimeSubscriptions

  /** Every notification becomes one setDesired: the controller then desires exactly the watched devices. */
  method Deliver(registry: TelemetryInterestRegistry, controller: RealtimeTopicSubscriptions)
    requires registry.Valid() && controller.Valid() && controller.desired == {}
    modifies controller
    ensures registry.Valid() && controller.Valid()
    ensures controller.desired == Watched(registry.devicesBySession)
    ensures forall d :: d in controller.desired <==> Watchers(registry.devicesBySession, d) != {}
  {
    var i := 0;
    while i < |registry.changes|
      invariant 0 <= i <= |registry.changes| && controller.Valid()
      invariant controller.desired == Desired(registry.changes[..i])
    {
      var change := registry.changes[i];
      assert registry.changes[..i + 1] == registry.changes[..i] + [change];
      DesiredMore(registry.changes[..i], change);
      controller.SetDesired(change.device, change.interested);
      i := i + 1;
    }
    assert registry.changes[..i] == registry.changes;
    DesiredIsWatched(registry.devicesBySession, registry.sessionCounts, registry.changes);
    forall d ensures d in Watched(registry.devicesBySession) <==> Watchers(registry.devicesBySession, d) != {} {
      WatchedHaveWatchers(registry.devicesBySession, d);
    }
  }

  lemma DesiredMore(changes: seq<Change>, change: Change)
    ensures Desired(changes + [change]) ==
            if change.interested then Desired(changes) + {change.device} else Desired(changes) - {change.device}
  {
    assert (changes + [change])[..|changes|] == changes;
  }
}
