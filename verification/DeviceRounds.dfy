/**
 A round of the business thread is a sequence of pipeline steps, so everything proved of the steps holds
 of the loop in DeviceServiceObject.
 */
module DeviceRounds {
  import opened Wrappers
  import P = Collections
  import opened DeviceTypes
  import opened DeviceSlices
  import opened DevicePipeline
  import opened DevicePipelineSteps
  import opened DevicePipelineTheorems
  import opened DeviceBatches
  import R = DeviceRegistry
  import S = DirtyState
  import W = PostgresWorker
  import V = DeviceService

  /** Some steps lead from one state to the other. */
  ghost predicate Reaches(w: World, t: World) {
    P.Reaches(w, t, Follows)
  }

  lemma ReachesSelf(w: World)
    ensures Reaches(w, w)
  {
    P.ReachesSelf(w, Follows);
  }

  lemma ReachesTransitive(a: World, b: World, c: World)
    requires Reaches(a, b) && Reaches(b, c)
    ensures Reaches(a, c)
  {
    P.ReachesTransitive(a, b, c, Follows);
  }

  lemma ReachesStep(w: World, step: Step)
    requires Enabled(w, step)
    ensures Reaches(w, Next(w, step))
  {
    hide Next, Enabled;
    assert Follows(w, Next(w, step));
    P.ReachesStep(w, Next(w, step), Follows);
  }

  /** `t` is reached by business steps that end in the service state `service`. */
  ghost predicate Becomes(w: World, t: World, service: V.Service) {
    Reaches(w, t) && t.service == service && t.results == w.results && t.job == w.job && t.startup == w.startup
  }

  lemma BecomesStep(w: World, step: Step, t: World)
    requires Inv(w) && Enabled(w, step) && t == Next(w, step)
    requires t.results == w.results && t.job == w.job && t.startup == w.startup
    ensures Becomes(w, t, t.service) && Inv(t)
  {
    hide Inv, Enabled, Next;
    ReachesStep(w, step);
    NextKeeps(w, step);
  }

  lemma BecomesThen(w: World, a: World, t: World, middle: V.Service, service: V.Service)
    requires Becomes(w, a, middle) && Becomes(a, t, service)
    ensures Becomes(w, t, service)
  {
    hide Reaches;
    ReachesTransitive(w, a, t);
  }

  lemma Stays(w: World)
    ensures Becomes(w, w, w.service)
  {
    hide Reaches;
    ReachesSelf(w);
  }

  // ---------------------------------------------------------------- dispatch

  lemma EntryKeyed(w: World, device: DeviceId)
    requires Inv(w) && device in w.service.dirty
    ensures w.service.dirty[device].record.device == device
  {
    RegisteredUnder(w, device);
  }

  lemma DispatchReaches(w: World, devices: seq<DeviceId>, at: Time) returns (t: World)
    requires Inv(w) && !w.service.unavailable && P.NoDuplicates(devices)
    requires forall d :: d in devices ==> d in w.service.dirty && S.HasDirty(w.service.dirty[d])
    ensures Inv(t) && Becomes(w, t, DispatchEach(w.service, devices, at).0)
    ensures !t.service.unavailable && t.service.inputDrained == w.service.inputDrained
    decreases devices
  {
    hide Inv, Becomes;
    if devices == [] {
      Stays(w);
      return w;
    }
    var device := devices[0];
    var write := S.WriteOf(w.service.dirty[device]);
    var taken := w.service.(dirty := S.TakeOne(w.service.dirty, device));
    var middle := Next(w, Dispatch(device, at));
    BecomesStep(w, Dispatch(device, at), middle);
    EntryKeyed(w, device);
    SubmitKeepsFlags(taken, write, at);
    forall d | d in devices[1..] ensures d in middle.service.dirty && middle.service.dirty[d] == w.service.dirty[d] {
      assert device !in devices[1..];
      SubmitTouchesOne(taken, write, at, d);
    }
    hide V.SubmitWrite, S.HasDirty;
    t := DispatchReaches(middle, devices[1..], at);
    BecomesThen(w, middle, t, middle.service, DispatchEach(w.service, devices, at).0);
  }

  lemma SubmitKeepsFlags(s: V.Service, write: DeviceWrite, at: Time)
    ensures var t := V.SubmitWrite(s, write, at).0;
            t.unavailable == s.unavailable && t.inputDrained == s.inputDrained
  {
    hide S.Restore, W.SubmitWrite, V.Degrade;
    DegradeKeepsFlags(s.(dirty := S.Restore(s.dirty, write, at)), write.record.device, 0);
  }

  lemma DegradeKeepsFlags(s: V.Service, device: DeviceId, revision: nat)
    ensures V.Degrade(s, device, revision).unavailable == s.unavailable
    ensures V.Degrade(s, device, revision).inputDrained == s.inputDrained
  {
  }

  lemma SendReaches(w: World, selection: S.Selection, devices: seq<DeviceId>, at: Time) returns (t: World)
    requires Inv(w) && !w.service.unavailable && S.Visits(w.service.dirty, selection, devices)
    ensures Inv(t) && Becomes(w, t, V.TakeAndSend(w.service, selection, devices, at).0)
    ensures !t.service.unavailable && t.service.inputDrained == w.service.inputDrained
  {
    hide Inv, Becomes, V.TakeAndSend, DispatchEach;
    forall d | d in w.service.dirty ensures w.service.dirty[d].record.device == d {
      EntryKeyed(w, d);
    }
    DispatchIsStepwise(w.service, selection, devices, at);
    t := DispatchReaches(w, devices, at);
  }

  lemma DispatchesReaches(w: World, after: V.Service, interval: nat, first: seq<DeviceId>, second: seq<DeviceId>, at: Time)
    returns (t: World)
    requires Inv(w) && V.Dispatches(w.service, after, interval, first, second, at)
    ensures Inv(t) && Becomes(w, t, after)
  {
    hide Inv, Becomes, V.TakeAndSend, S.Visits;
    var s := w.service;
    if s.unavailable || (s.inputDrained && s.blocked) {
      Stays(w);
      return w;
    } else if s.inputDrained {
      var sent := SendReaches(w, S.AllDirty, first, at);
      var all := V.TakeAndSend(s, S.AllDirty, first, at).1;
      var mid := sent.service;
      BecomesService(w, sent, V.TakeAndSend(s, S.AllDirty, first, at).0);
      var flags := SetDrain(mid.inputDrained, if all then false else mid.dispatchPending, if all then mid.blocked else true);
      t := Next(sent, flags);
      BecomesStep(sent, flags, t);
      BecomesThen(w, sent, t, mid, after);
    } else {
      var urgent := SendReaches(w, S.AllImmediate, first, at);
      BecomesService(w, urgent, V.TakeAndSend(s, S.AllImmediate, first, at).0);
      t := SendReaches(urgent, S.TelemetryDue(at, interval), second, at);
      BecomesThen(w, urgent, t, urgent.service, after);
    }
  }

  lemma BecomesService(w: World, t: World, service: V.Service)
    requires Becomes(w, t, service)
    ensures t.service == service && t.results == w.results
  {
  }

  // ---------------------------------------------------------------- timers

  lemma SubmitReaches(w: World, devices: seq<DeviceId>) returns (t: World)
    requires Inv(w)
    ensures Inv(t) && Becomes(w, t, V.SubmitEach(w.service, devices))
    decreases devices
  {
    hide Inv, Becomes, V.SubmitPending;
    if devices == [] {
      Stays(w);
      return w;
    }
    var middle := Next(w, Provide(devices[0]));
    BecomesStep(w, Provide(devices[0]), middle);
    t := SubmitReaches(middle, devices[1..]);
    BecomesThen(w, middle, t, middle.service, V.SubmitEach(w.service, devices));
  }

  lemma ExpireReaches(w: World, devices: seq<DeviceId>, now: Time, timeout: nat, at: Time) returns (t: World)
    requires Inv(w)
    ensures Inv(t) && Becomes(w, t, V.ExpireEach(w.service, devices, now, timeout, at))
    decreases devices
  {
    hide Inv, Becomes, V.ExpireOne;
    if devices == [] {
      Stays(w);
      return w;
    }
    var step := Expire(devices[0], now, timeout, at);
    var middle := Next(w, step);
    BecomesStep(w, step, middle);
    t := ExpireReaches(middle, devices[1..], now, timeout, at);
    BecomesThen(w, middle, t, middle.service, V.ExpireEach(w.service, devices, now, timeout, at));
  }

  lemma TimersReach(w: World, submits: seq<DeviceId>, due: bool, expired: seq<DeviceId>, now: Time, timeout: nat, at: Time)
    returns (t: World)
    requires Inv(w)
    ensures Inv(t) && Becomes(w, t, V.ReadyTimers(w.service, submits, due, expired, now, timeout, at))
  {
    hide Inv, Becomes, V.SubmitEach, V.ExpireEach;
    var submitted := w;
    Stays(w);
    if !w.service.unavailable {
      submitted := SubmitReaches(w, submits);
      BecomesService(w, submitted, V.SubmitEach(w.service, submits));
    }
    t := submitted;
    if due {
      t := ExpireReaches(submitted, expired, now, timeout, at);
      BecomesThen(w, submitted, t, submitted.service, V.ExpireEach(submitted.service, expired, now, timeout, at));
    }
  }

  // ---------------------------------------------------------------- input

  /** ParseTelemetry never supplies a label. */
  predicate Parsed(message: V.Inbound) {
    message.ReportMessage? ==> message.report.dcdwLabel.None?
  }

  lemma MessagesReach(w: World, messages: seq<V.Inbound>, at: Time) returns (t: World)
    requires Inv(w) && (messages == [] || w.startup == map[]) && forall k :: 0 <= k < |messages| ==> Parsed(messages[k])
    ensures Inv(t) && Becomes(w, t, V.HandleMessages(w.service, messages, at))
    decreases messages
  {
    hide Inv, Becomes, V.HandleRegistration, V.HandleReport, R.ApplyRegistration, R.ApplyTelemetry;
    if messages == [] {
      Stays(w);
      return w;
    }
    assert Parsed(messages[0]);
    var step := match messages[0]
      case RegistrationMessage(registration, receivedAt) => Register(registration, receivedAt, at)
      case ReportMessage(device, report, receivedAt) => Tell(device, report.payload, report.deviceType, receivedAt, at);
    var middle := Next(w, step);
    BecomesStep(w, step, middle);
    t := MessagesReach(middle, messages[1..], at);
    BecomesThen(w, middle, t, middle.service, V.HandleMessages(w.service, messages, at));
  }

  /** Like Becomes, with the first `count` results handled. */
  ghost predicate Handles(w: World, t: World, service: V.Service, count: nat) {
    Reaches(w, t) && t.service == service && count <= |w.results| && t.results == w.results[count..] && t.job == w.job &&
    t.startup == w.startup
  }

  lemma RecoverReaches(w: World, devices: seq<DeviceId>, at: Time) returns (t: World)
    requires Inv(w) && !w.service.unavailable
    ensures Inv(t) && Becomes(w, t, V.RecoverEach(w.service, devices, at))
    decreases devices
  {
    hide Inv, Becomes, V.SubmitWrite;
    if devices == [] {
      Stays(w);
      return w;
    }
    var device := devices[0];
    var middle := w;
    Stays(w);
    if device in w.service.degraded && device in w.service.registry.records {
      middle := Next(w, Recover(device, at));
      BecomesStep(w, Recover(device, at), middle);
      SubmitKeepsFlags(w.service, V.FullWrite(w.service.registry.records[device]), at);
    }
    t := RecoverReaches(middle, devices[1..], at);
    BecomesThen(w, middle, t, middle.service, V.RecoverEach(w.service, devices, at));
  }

  lemma ResultReaches(w: World, order: seq<DeviceId>, at: Time) returns (t: World)
    requires Inv(w) && |w.results| > 0
    ensures Inv(t) && Handles(w, t, V.HandleResult(w.service, w.results[0], order, at), 1)
  {
    hide Inv, V.HandleCompleted, V.HandleProvisioned, V.HandlePermanentFailure, V.HandleUnavailable, Reaches;
    var step := HandleNext(at);
    var middle := HandledNext(w, at);
    assert Enabled(w, step) && Next(w, step) == middle;
    ReachesStep(w, step);
    NextKeeps(w, step);
    HandledService(w, at);
    assert middle.results == w.results[1..] && middle.job == w.job by {
      HandledRest(w, at);
    }
    hide HandledNext;
    if w.results[0].DatabaseRecovered? {
      t := RecoverReaches(middle, order, at);
      ReachesTransitive(w, middle, t);
    } else {
      t := middle;
    }
  }

  lemma HandledRest(w: World, at: Time)
    requires |w.results| > 0
    ensures HandledNext(w, at).results == w.results[1..] && HandledNext(w, at).job == w.job
  {
    hide V.HandleResult, R.AddProvisioned, R.ApplyRegistration;
  }

  lemma ResultsReach(w: World, count: nat, orders: seq<seq<DeviceId>>, at: Time) returns (t: World)
    requires Inv(w) && count <= |w.results| && |orders| == count
    ensures Inv(t) && Handles(w, t, V.HandleResults(w.service, w.results[..count], orders, at), count)
    decreases count
  {
    hide Inv, V.HandleResult, Reaches;
    if count == 0 {
      ReachesSelf(w);
      return w;
    }
    var middle := ResultReaches(w, orders[0], at);
    t := ResultsReach(middle, count - 1, orders[1..], at);
    ReachesTransitive(w, middle, t);
    assert w.results[..count][1..] == middle.results[..count - 1];
    assert w.results[..count][0] == w.results[0];
  }

  lemma InputReaches(w: World, orders: seq<seq<DeviceId>>, cancel: bool, messages: seq<V.Inbound>, at: Time)
    returns (t: World)
    requires Inv(w) && |orders| == |w.results| && (messages == [] || w.startup == map[])
    requires forall k :: 0 <= k < |messages| ==> Parsed(messages[k])
    ensures Inv(t) && Reaches(w, t) && t.results == []
    ensures t.service == V.ReadyInput(w.service, w.results, orders, cancel, messages, at)
  {
    hide Inv, Reaches, V.HandleResults, V.HandleMessages, V.Cancel;
    assert w.results[..|w.results|] == w.results;
    var handled := ResultsReach(w, |w.results|, orders, at);
    var next := handled;
    if cancel {
      next := Next(handled, CancelWork);
      ReachesStep(handled, CancelWork);
      NextKeeps(handled, CancelWork);
      ReachesTransitive(w, handled, next);
    }
    t := MessagesReach(next, messages, at);
    ReachesTransitive(w, next, t);
  }

  /**
   Whatever a round of `DeviceService.ProcessReady` leaves behind is a state some run of the pipeline
   passes through, so all invariants hold of it.
   */
  lemma RoundIsARun(w: World, orders: seq<seq<DeviceId>>, cancel: bool, messages: seq<V.Inbound>, submits: seq<DeviceId>,
                    due: bool, expired: seq<DeviceId>, now: Time, timeout: nat, interval: nat, first: seq<DeviceId>,
                    second: seq<DeviceId>, after: V.Service, at: Time)
    requires Inv(w) && |orders| == |w.results| && (messages == [] || w.startup == map[])
    requires forall k :: 0 <= k < |messages| ==> Parsed(messages[k])
    requires var input := V.ReadyInput(w.service, w.results, orders, cancel, messages, at);
             var timers := V.ReadyTimers(input, submits, due, expired, now, timeout, at);
             V.Dispatches(timers, after, interval, first, second, at)
    ensures exists t :: Reaches(w, t) && Inv(t) && t.service == after && t.results == []
  {
    hide Inv, Reaches, V.ReadyInput, V.ReadyTimers, V.Dispatches;
    var a := InputReaches(w, orders, cancel, messages, at);
    var b := TimersReach(a, submits, due, expired, now, timeout, at);
    var t := DispatchesReaches(b, after, interval, first, second, at);
    ReachesTransitive(w, a, b);
    ReachesTransitive(w, b, t);
    assert Reaches(w, t) && Inv(t) && t.service == after && t.results == [];
  }
}
