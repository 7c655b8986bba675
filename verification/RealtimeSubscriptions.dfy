/**
 The controller that makes the broker subscriptions follow the desired set. It is one asynchronous
 loop; each method here runs from one suspension of that loop to the next.
 */
module RealtimeSubscriptions {
  import opened Collections

  type Device = string

  datatype Operation = Subscribe | Unsubscribe

  /** An operation the broker acknowledged, with the connection generation it was started in. */
  datatype Ack = Ack(operation: Operation, device: Device, generation: nat)

  /**
   Where the loop is suspended. `Running` waits for an operation with `remaining` still to visit;
   `Deciding` waits for reconcileOnce to return; `Exiting` has left the loop, but the promise that says
   it is running is only cleared one microtask later.
   */
  datatype Loop =
    | Idle
    | Running(operation: Operation, device: Device, generation: nat, remaining: set<Device>)
    | Deciding(completed: bool)
    | Exiting

  /** What the acknowledged operations of one generation amount to. */
  function Effect(acks: seq<Ack>, generation: nat): set<Device> {
    if acks == [] then {}
    else
      var last := acks[|acks| - 1];
      var before := Effect(acks[..|acks| - 1], generation);
      if last.generation != generation then before
      else if last.operation.Subscribe? then before + {last.device}
      else before - {last.device}
  }

  lemma EffectMore(acks: seq<Ack>, ack: Ack, generation: nat)
    ensures Effect(acks + [ack], generation) ==
            var before := Effect(acks, generation);
            if ack.generation != generation then before
            else if ack.operation.Subscribe? then before + {ack.device}
            else before - {ack.device}
  {
    assert (acks + [ack])[..|acks|] == acks;
  }

  lemma {:induction false} EffectOfNewGeneration(acks: seq<Ack>, generation: nat)
    requires forall k :: 0 <= k < |acks| ==> acks[k].generation < generation
    ensures Effect(acks, generation) == {}
  {
    if acks != [] {
      EffectOfNewGeneration(acks[..|acks| - 1], generation);
    }
  }

  /** Equal sizes and one inclusion make the sets equal. */
  lemma SameSizeSubset(desired: set<Device>, applied: set<Device>)
    ensures desired == applied <==> |desired| == |applied| && desired <= applied
  {
    if |desired| == |applied| && desired <= applied {
      assert applied == desired + (applied - desired);
      assert |applied| == |desired| + |applied - desired|;
    }
  }

  function Difference(a: set<Device>, b: set<Device>): set<Device> {
    (a - b) + (b - a)
  }

  /** Operations already decided on that the desired set no longer asks for. */
  function Stale(loop: Loop, desired: set<Device>, applied: set<Device>): set<Device> {
    match loop
    case Running(Unsubscribe, device, _, _) => {device} * desired
    case Running(Subscribe, device, _, remaining) => ({device} + remaining) - desired - applied
    case _ => {}
  }

  function Rank(loop: Loop): nat {
    match loop
    case Idle => 0
    case Exiting => 1
    case Running(_, _, _, _) => 3
    case Deciding(_) => 4
  }

  /**
   While nobody calls from outside and operations succeed, every resumption brings this down: twice the
   operations that work against the desired set, the sets' difference, an answer from an earlier
   connection still to come, a requested run, and the place in the loop.
   */
  function MeasureOf(loop: Loop, generation: nat, desired: set<Device>, applied: set<Device>, rerun: bool): nat {
    6 * (2 * |Stale(loop, desired, applied)| + |Difference(desired, applied)| +
         (if loop.Running? && loop.generation != generation then 1 else 0)) +
    (if rerun then 3 else 0) + Rank(loop)
  }

  lemma OneRemoved(desired: set<Device>, applied: set<Device>, device: Device)
    requires device in applied
    ensures |Difference(desired, applied - {device})| ==
            |Difference(desired, applied)| + (if device in desired then 1 else -1)
  {
    if device in desired {
      assert Difference(desired, applied - {device}) == Difference(desired, applied) + {device};
    } else {
      assert Difference(desired, applied - {device}) == Difference(desired, applied) - {device};
    }
  }

  lemma OneAdded(desired: set<Device>, applied: set<Device>, device: Device)
    requires device !in applied
    ensures |Difference(desired, applied + {device})| ==
            |Difference(desired, applied)| + (if device in desired then -1 else 1)
  {
    if device in desired {
      assert Difference(desired, applied + {device}) == Difference(desired, applied) - {device};
    } else {
      assert Difference(desired, applied + {device}) == Difference(desired, applied) + {device};
    }
  }

  /** An acknowledged unsubscription brings the measure down, even one that is no longer wanted. */
  lemma UnsubscribedIsLess(loop: Loop, next: Loop, desired: set<Device>, applied: set<Device>, rerun: bool)
    requires loop.Running? && loop.operation.Unsubscribe? && loop.device in applied
    requires next == Deciding(true) || (next.Running? && next.generation == loop.generation)
    requires Stale(next, desired, applied - {loop.device}) == {}
    ensures MeasureOf(next, loop.generation, desired, applied - {loop.device}, rerun) <
            MeasureOf(loop, loop.generation, desired, applied, rerun)
  {
    OneRemoved(desired, applied, loop.device);
    assert Stale(loop, desired, applied) == if loop.device in desired then {loop.device} else {};
  }

  lemma SubscribedIsLess(loop: Loop, next: Loop, desired: set<Device>, applied: set<Device>, rerun: bool)
    requires loop.Running? && loop.operation.Subscribe? && loop.device !in applied && loop.device !in loop.remaining
    requires next == Deciding(true) || (next.Running? && next.generation == loop.generation)
    requires Stale(next, desired, applied + {loop.device}) <= loop.remaining - desired - (applied + {loop.device})
    ensures MeasureOf(next, loop.generation, desired, applied + {loop.device}, rerun) <
            MeasureOf(loop, loop.generation, desired, applied, rerun)
  {
    OneAdded(desired, applied, loop.device);
    var before := Stale(loop, desired, applied);
    var after := Stale(next, desired, applied + {loop.device});
    SubsetSize(after, before - {loop.device});
    assert loop.device in before <==> loop.device !in desired;
  }

  lemma LateAnswerIsLess(loop: Loop, generation: nat, desired: set<Device>, applied: set<Device>, rerun: bool)
    requires loop.Running? && loop.generation != generation
    ensures MeasureOf(Deciding(true), generation, desired, applied, rerun) < MeasureOf(loop, generation, desired, applied, rerun)
  {
  }

  lemma NextRoundIsLess(next: Loop, generation: nat, desired: set<Device>, applied: set<Device>, completed: bool, rerun: bool)
    requires Stale(next, desired, applied) == {}
    requires (next == Deciding(true) && rerun) || (next.Running? && next.generation == generation)
    ensures MeasureOf(next, generation, desired, applied, false) <
            MeasureOf(Deciding(completed), generation, desired, applied, rerun)
  {
  }

  lemma EndIsLess(generation: nat, desired: set<Device>, applied: set<Device>, completed: bool, rerun: bool)
    ensures MeasureOf(Exiting, generation, desired, applied, rerun) <
            MeasureOf(Deciding(completed), generation, desired, applied, rerun)
    ensures MeasureOf(Idle, generation, desired, applied, rerun) < MeasureOf(Exiting, generation, desired, applied, rerun)
  {
  }

  class RealtimeTopicSubscriptions {
    var desired: set<Device>
    var applied: set<Device>
    var connected: bool
    var generation: nat
    var rerun: bool
    var loop: Loop
    /** Calls of the error callback. */
    var errors: seq<(Operation, Device)>
    ghost var acks: seq<Ack>
    /** The loop last ended on a failed operation. */
    ghost var failed: bool
    /** Somebody asked for a run after the loop ended and before its promise was cleared. */
    ghost var missed: bool

    predicate Converged()
      reads this
    {
      !connected || applied == desired
    }

    ghost predicate Valid()
      reads this
    {
      && applied == Effect(acks, generation)
      && (forall k :: 0 <= k < |acks| ==> acks[k].generation <= generation)
      && (!connected ==> applied == {})
      && ((loop.Idle? || loop.Exiting?) && !failed && !missed ==> Converged())
      && (loop.Running? ==> InFlightOk())
    }

    /** An operation of the current generation is one the loop had reason to start, and the connection still stands. */
    ghost predicate InFlightOk()
      requires loop.Running?
      reads this
    {
      && loop.generation <= generation && loop.device !in loop.remaining
      && (loop.generation == generation ==> connected && (loop.operation.Unsubscribe? <==> loop.device in applied))
    }

    constructor ()
      ensures Valid() && loop == Idle && desired == {} && applied == {} && !connected && !failed && !missed
    {
      desired, applied, connected, generation, rerun, loop := {}, {}, false, 0, false, Idle;
      errors, acks, failed, missed := [], [], false, false;
    }

    // -------------------------------------------------------------- calls from outside

    method SetConnected(isConnected: bool)
      requires Valid()
      modifies this
      ensures Valid() && connected == isConnected && generation == old(generation) + 1 && applied == {}
      ensures desired == old(desired) && acks == old(acks)
      ensures failed == (old(failed) && !old(loop).Idle?)
      ensures if old(loop).Idle? then !rerun && (loop == Deciding(true) || loop.Running?) &&
                                      (loop.Running? <==> connected && applied != desired)
              else rerun && loop == old(loop)
    {
      generation := generation + 1;
      connected := isConnected;
      applied := {};
      EffectOfNewGeneration(acks, generation);
      Schedule();
    }

    method SetDesired(device: Device, interested: bool)
      requires Valid()
      modifies this
      ensures Valid() && desired == if interested then old(desired) + {device} else old(desired) - {device}
      ensures applied == old(applied) && connected == old(connected) && generation == old(generation) && acks == old(acks)
      ensures failed == (old(failed) && !old(loop).Idle?)
      ensures if old(loop).Idle? then !rerun && (loop == Deciding(true) || loop.Running?) &&
                                      (loop.Running? <==> connected && applied != desired)
              else rerun && loop == old(loop)
    {
      if interested {
        desired := desired + {device};
      } else {
        desired := desired - {device};
      }
      Schedule();
    }

    method Settle()
      requires Valid()
      modifies this
      ensures Valid() && desired == old(desired) && applied == old(applied)
    {
      Schedule();
    }

    /** A loop that is running, or whose promise is still there, is only asked to run again. */
    method Schedule()
      requires applied == Effect(acks, generation) && (!connected ==> applied == {})
      requires forall k :: 0 <= k < |acks| ==> acks[k].generation <= generation
      requires loop.Running? ==> InFlightOk()
      modifies this`rerun, this`loop, this`failed, this`missed
      ensures Valid()
      ensures failed == (old(failed) && !old(loop).Idle?)
      ensures if old(loop).Idle? then !rerun && (loop == Deciding(true) || loop.Running?) &&
                                      (loop.Running? <==> connected && applied != desired)
              else rerun && loop == old(loop)
    {
      if !loop.Idle? {
        rerun := true;
        if loop.Exiting? {
          missed := true;
        }
        return;
      }
      Begin();
    }

    // -------------------------------------------------------------- the loop

    /** The body of the loop up to its first suspension. */
    method Begin()
      requires applied == Effect(acks, generation) && (!connected ==> applied == {})
      requires forall k :: 0 <= k < |acks| ==> acks[k].generation <= generation
      modifies this`rerun, this`loop, this`failed, this`missed
      ensures Valid() && !rerun && !failed && !missed
      ensures loop == Deciding(true) || (loop.Running? && loop.generation == generation)
      ensures Stale(loop, desired, applied) == {}
      ensures connected && applied != desired <==> loop.Running?
    {
      rerun, failed, missed := false, false, false;
      if !connected {
        loop := Deciding(true);
        return;
      }
      VisitApplied(applied);
    }

    /** The first loop of reconcileOnce, from the devices still to visit on. */
    method VisitApplied(todo: set<Device>)
      requires connected
      modifies this`loop
      ensures loop == Deciding(true) || (loop.Running? && InFlightOk() && loop.generation == generation)
      ensures Stale(loop, desired, applied) == {}
      ensures loop.Deciding? <==> desired <= applied && forall d :: d in todo && d in applied ==> d in desired
    {
      var remaining := todo * applied;
      while remaining != {}
        invariant remaining <= todo * applied
        invariant forall d :: d in todo && d in applied && d !in remaining ==> d in desired
        decreases remaining
      {
        var device :| device in remaining;
        remaining := remaining - {device};
        if device !in desired {
          loop := Running(Unsubscribe, device, generation, remaining);
          return;
        }
      }
      VisitDesired(desired);
    }

    /** The second loop of reconcileOnce. */
    method VisitDesired(todo: set<Device>)
      requires connected
      modifies this`loop
      ensures loop == Deciding(true) || (loop.Running? && InFlightOk() && loop.generation == generation)
      ensures Stale(loop, desired, applied) <= todo - desired - applied
      ensures loop.Running? ==> loop.operation.Subscribe? && {loop.device} + loop.remaining <= todo
      ensures loop.Deciding? <==> todo <= applied
    {
      var remaining := todo;
      while remaining != {}
        invariant remaining <= todo
        invariant forall d :: d in todo && d !in remaining ==> d in applied
        decreases remaining
      {
        var device :| device in remaining;
        remaining := remaining - {device};
        if device !in applied {
          loop := Running(Subscribe, device, generation, remaining);
          return;
        }
      }
      loop := Deciding(true);
    }

    /** The pending operation settled. An answer that belongs to an earlier connection changes nothing. */
    method Resume(ok: bool)
      requires Valid() && loop.Running?
      modifies this`loop, this`applied, this`acks, this`errors
      ensures Valid()
      ensures acks == if ok then old(acks) + [Ack(old(loop).operation, old(loop).device, old(loop).generation)] else old(acks)
      ensures old(loop).generation != generation ==> applied == old(applied) && loop == Deciding(true)
      ensures old(loop).generation == generation && !ok ==>
                applied == old(applied) && loop == Deciding(false) &&
                errors == old(errors) + [(old(loop).operation, old(loop).device)]
      ensures loop.Running? || loop == Deciding(true) || (!ok && loop == Deciding(false))
      ensures ok ==> Measure() < old(Measure()) && errors == old(errors)
    {
      hide MeasureOf, Effect, Stale;
      var Running(operation, device, started, remaining) := loop;
      if ok {
        var ack := Ack(operation, device, started);
        EffectMore(acks, ack, generation);
        acks := acks + [ack];
      }
      if !connected || started != generation {
        LateAnswerIsLess(loop, generation, desired, applied, rerun);
        loop := Deciding(true);
        return;
      }
      if !ok {
        errors := errors + [(operation, device)];
        loop := Deciding(false);
        return;
      }
      if operation.Unsubscribe? {
        applied := applied - {device};
        VisitApplied(remaining);
        UnsubscribedIsLess(old(loop), loop, desired, old(applied), rerun);
      } else {
        applied := applied + {device};
        VisitDesired(remaining);
        SubscribedIsLess(old(loop), loop, desired, old(applied), rerun);
      }
    }

    method NeedsReconcile() returns (needed: bool)
      ensures needed <==> connected && desired != applied
    {
      SameSizeSubset(desired, applied);
      if !connected {
        return false;
      }
      if |desired| != |applied| {
        return true;
      }
      var todo := desired;
      while todo != {}
        invariant todo <= desired && desired - todo <= applied
        decreases todo
      {
        var device :| device in todo;
        todo := todo - {device};
        if device !in applied {
          return true;
        }
      }
      return false;
    }

    /** The condition of the loop. Leaving it without a failed operation means that the sets agree. */
    method Decide()
      requires Valid() && loop.Deciding?
      modifies this`loop, this`rerun, this`failed, this`missed
      ensures Valid()
      ensures loop.Exiting? && !failed ==> Converged()
      ensures loop.Exiting? <==> !old(loop).completed || (!old(rerun) && Converged())
      ensures loop.Exiting? ==> failed == !old(loop).completed && !missed
      ensures loop.Exiting? || loop.Running? || loop == Deciding(true)
      ensures Measure() < old(Measure())
    {
      hide MeasureOf, Effect, Stale;
      var completed := loop.completed;
      EndIsLess(generation, desired, applied, completed, rerun);
      if !completed {
        failed, missed, loop := true, false, Exiting;
        return;
      }
      var needed := NeedsReconcile();
      if rerun || needed {
        Begin();
        NextRoundIsLess(loop, generation, desired, applied, completed, old(rerun));
      } else {
        failed, missed, loop := false, false, Exiting;
      }
    }

    /** The promise of the loop is cleared. */
    method Clear()
      requires Valid() && loop.Exiting?
      modifies this`loop
      ensures Valid() && loop.Idle?
      ensures !failed && !missed ==> Converged()
      ensures Measure() < old(Measure())
    {
      EndIsLess(generation, desired, applied, true, rerun);
      loop := Idle;
    }

    function Measure(): nat
      reads this
    {
      MeasureOf(loop, generation, desired, applied, rerun)
    }

    /** With the environment quiet and operations succeeding, the loop ends with both sets equal. */
    method RunToEnd()
      requires Valid() && !loop.Idle? && !loop.Exiting? && loop != Deciding(false)
      modifies this`loop, this`rerun, this`failed, this`missed, this`applied, this`acks, this`errors
      ensures Valid() && loop.Idle? && !failed && Converged() && desired == old(desired)
      ensures connected ==> Effect(acks, generation) == desired
      ensures errors == old(errors)
    {
      hide MeasureOf, Effect, Stale;
      while !loop.Idle?
        invariant Valid() && (loop.Exiting? || loop.Idle? ==> !failed && !missed)
        invariant loop != Deciding(false) && errors == old(errors)
        decreases Measure()
      {
        if loop.Running? {
          Resume(true);
        } else if loop.Deciding? {
          Decide();
        } else {
          Clear();
        }
      }
    }
  }

  // ---------------------------------------------------------------- the gap before the promise is cleared

  datatype Interest = Interest(device: Device, interested: bool)

  /** The desired set after some changes of interest. */
  function Wanted(desired: set<Device>, interests: seq<Interest>): set<Device>
    decreases interests
  {
    if interests == [] then desired
    else
      var first := interests[0];
      Wanted(if first.interested then desired + {first.device} else desired - {first.device}, interests[1..])
  }

  /**
   The loop has ended and its promise is not cleared yet. However often interest changes in that gap,
   no run follows: the controller is converged exactly when it is disconnected or the changes together
   ask for what is applied already.
   */
  method InterestsInGap(controller: RealtimeTopicSubscriptions, interests: seq<Interest>)
    requires controller.Valid() && controller.loop.Exiting? && !controller.failed && !controller.missed
    modifies controller
    ensures controller.Valid() && controller.loop.Idle? && !controller.failed
    ensures controller.connected == old(controller.connected) && controller.applied == old(controller.applied)
    ensures controller.desired == Wanted(old(controller.desired), interests)
    ensures controller.Converged() <==>
              !old(controller.connected) || Wanted(old(controller.desired), interests) == old(controller.applied)
  {
    var i := 0;
    while i < |interests|
      invariant 0 <= i <= |interests|
      invariant controller.Valid() && controller.loop.Exiting? && !controller.failed
      invariant controller.connected == old(controller.connected) && controller.applied == old(controller.applied)
      invariant Wanted(old(controller.desired), interests) == Wanted(controller.desired, interests[i..])
    {
      assert interests[i..][0] == interests[i] && interests[i..][1..] == interests[i + 1..];
      controller.SetDesired(interests[i].device, interests[i].interested);
      i := i + 1;
    }
    controller.Clear();
  }

  /** A single change in the gap is harmless exactly when disconnected, or when it asks for what is applied. */
  method InterestInGap(controller: RealtimeTopicSubscriptions, device: Device, interested: bool)
    requires controller.Valid() && controller.loop.Exiting? && !controller.failed && !controller.missed
    modifies controller
    ensures controller.Valid() && controller.loop.Idle? && !controller.failed
    ensures controller.Converged() <==>
              !old(controller.connected) || (interested <==> device in old(controller.applied))
  {
    controller.SetDesired(device, interested);
    controller.Clear();
  }

  /** A connection notification in the gap is harmless exactly when it disconnects, or when nothing is desired. */
  method ConnectionInGap(controller: RealtimeTopicSubscriptions, isConnected: bool)
    requires controller.Valid() && controller.loop.Exiting? && !controller.failed && !controller.missed
    modifies controller
    ensures controller.Valid() && controller.loop.Idle? && !controller.failed
    ensures controller.Converged() <==> !isConnected || old(controller.desired) == {}
  {
    controller.SetConnected(isConnected);
    controller.Clear();
  }

  /**
   The gap between the end of the loop and the clearing of its promise: a device desired just then is
   not subscribed, although the controller is connected, idle and has seen no error.
   */
  method LateInterestIsMissed() returns (controller: RealtimeTopicSubscriptions)
    ensures fresh(controller) && controller.Valid() && controller.loop.Idle? && !controller.failed
    ensures controller.connected && controller.desired == {"d"} && controller.applied == {} && !controller.Converged()
  {
    controller := new RealtimeTopicSubscriptions();
    controller.SetConnected(true);
    controller.Decide();
    controller.SetDesired("d", true);
    controller.Clear();
  }
}
