/** A run of the pipeline that shows where its promises end. */
module DevicePipelineCases {
  import opened Wrappers
  import opened DeviceTypes
  import opened DeviceSlices
  import opened DevicePipeline
  import opened DevicePipelineSteps
  import opened DevicePipelineTheorems
  import R = DeviceRegistry
  import S = DirtyState
  import W = PostgresWorker
  import V = DeviceService

  lemma {:induction false} RunGrows(run: seq<World>, step: Step)
    requires IsRun(run) && Enabled(run[|run| - 1], step)
    ensures IsRun(run + [Next(run[|run| - 1], step)])
  {
    hide Next, Enabled, Starts;
    var longer := run + [Next(run[|run| - 1], step)];
    forall i, j | 0 <= i < |longer| && 0 <= j < |longer| && j == i + 1 ensures Follows(longer[i], longer[j]) {
      if j < |run| {
        assert Follows(run[i], run[j]);
      }
    }
  }

  // ---------------------------------------------------------------- a provisioned record the directory refuses

  /** A flight controller without a school, labelled "L". */
  function Controller(device: DeviceId): Registration {
    Registration(device, true, None, Some("L"), FlightController, None, None, None)
  }

  function ControllerRow(device: DeviceId): Row {
    Row(DeviceRecord(device, 0, "", Some("L"), "PX4", Online, Some(5), None, None, 0, FlightController, None, None, None),
        UNFLAGGED, 0)
  }

  function Nothing(): World {
    World(V.Service(R.Empty(), map[], map[], map[], map[], map[], false, false, false, false, 0, IDLE_WORKER, []),
          map[], Idle, map[], [], map[], {}, 0, [])
  }

  lemma NothingStarts()
    ensures IsRun([Nothing()])
  {
    assert InactiveIn(R.Empty().records, 0, 0) == {};
    assert R.ExpireInactive(R.Empty(), 0, 0) == R.Empty();
    assert Init(Nothing(), [], 0, 0);
  }

  /** Both controllers registered and were provisioned: without a school the database does not compare their labels. */
  function BothProvisioned(): World {
    World(
      V.Service(R.Empty(), map[],
                map["a" := V.Pending(Controller("a"), 5, true), "b" := V.Pending(Controller("b"), 5, true)],
                map[], map[], map[], false, false, false, false, 2, IDLE_WORKER, []),
      map[], Idle, map["a" := ControllerRow("a"), "b" := ControllerRow("b")],
      [Provisioned("a", ControllerRow("a").record), Provisioned("b", ControllerRow("b").record)], map[], {}, 0, [])
  }

  lemma ReachBothProvisioned() returns (run: seq<World>)
    ensures |run| > 0 && IsRun(run) && run[|run| - 1] == BothProvisioned()
  {
    run := [Nothing()];
    NothingStarts();
    hide IsRun, HandledNext, FinishedWrite, Reconnected, QueuedStartup, V.Mark, V.DispatchOne, V.RecoverOne, V.Cancel, V.HandleReport, V.ExpireOne;
    RunGrows(run, Register(Controller("a"), 5, 0));
    var w1 := Next(Nothing(), Register(Controller("a"), 5, 0));
    run := run + [w1];
    RunGrows(run, Provide("a"));
    var w2 := Next(w1, Provide("a"));
    run := run + [w2];
    assert w2.service.worker.provisions == map["a" := W.Provision(Controller("a"), 5)];
    RunGrows(run, TakeProvision("a"));
    var w3 := Next(w2, TakeProvision("a"));
    run := run + [w3];
    RunGrows(run, FinishProvision(W.Done(()), true, 0));
    var w4 := Next(w3, FinishProvision(W.Done(()), true, 0));
    run := run + [w4];
    assert w4 == OneProvisioned();
    run := ReachSecond(run);
  }

  function OneProvisioned(): World {
    World(
      V.Service(R.Empty(), map[], map["a" := V.Pending(Controller("a"), 5, true)],
                map[], map[], map[], false, false, false, false, 1, IDLE_WORKER, []),
      map[], Idle, map["a" := ControllerRow("a")], [Provisioned("a", ControllerRow("a").record)], map[], {}, 0, [])
  }

  /** The second controller registered, and its provisioning was submitted. */
  function SecondSubmitted(): World {
    World(
      V.Service(R.Empty(), map[],
                map["a" := V.Pending(Controller("a"), 5, true), "b" := V.Pending(Controller("b"), 5, true)],
                map[], map[], map[], false, false, false, false, 2,
                IDLE_WORKER.(provisions := map["b" := W.Provision(Controller("b"), 5)]), []),
      map[], Idle, map["a" := ControllerRow("a")], [Provisioned("a", ControllerRow("a").record)], map[], {}, 0, [])
  }

  lemma SubmitSecond(before: seq<World>) returns (run: seq<World>)
    requires |before| > 0 && IsRun(before) && before[|before| - 1] == OneProvisioned()
    ensures |run| > 0 && IsRun(run) && run[|run| - 1] == SecondSubmitted()
  {
    hide IsRun;
    RunGrows(before, Register(Controller("b"), 5, 0));
    var registered := Next(OneProvisioned(), Register(Controller("b"), 5, 0));
    run := before + [registered];
    RunGrows(run, Provide("b"));
    run := run + [Next(registered, Provide("b"))];
    assert run[|run| - 1] == SecondSubmitted();
  }

  lemma ReachSecond(before: seq<World>) returns (run: seq<World>)
    requires |before| > 0 && IsRun(before) && before[|before| - 1] == OneProvisioned()
    ensures |run| > 0 && IsRun(run) && run[|run| - 1] == BothProvisioned()
  {
    hide IsRun;
    run := SubmitSecond(before);
    RunGrows(run, TakeProvision("b"));
    var taken := Next(SecondSubmitted(), TakeProvision("b"));
    run := run + [taken];
    RunGrows(run, FinishProvision(W.Done(()), true, 0));
    run := run + [Next(taken, FinishProvision(W.Done(()), true, 0))];
    assert run[|run| - 1] == BothProvisioned();
  }

  /** Handling both results: the second record is refused, its entry stays submitted, and nothing is counted any more. */
  ghost predicate Miscounts(w: World) {
    Enabled(w, HandleNext(0)) &&
    var first := Next(w, HandleNext(0));
    Enabled(first, HandleNext(0)) &&
    var second := Next(first, HandleNext(0)).service;
    second.outstanding == 0 && |second.submitted| + |V.SubmittedIn(second.pending)| == 1 && second.worker.provisions == map[]
  }

  lemma BothProvisionedMiscounts()
    ensures Miscounts(BothProvisioned())
  {
    var w := BothProvisioned();
    var first := Next(w, HandleNext(0));
    assert first.service.pending == map["b" := V.Pending(Controller("b"), 5, true)];
    assert first.results == [Provisioned("b", ControllerRow("b").record)];
    assert first.service.outstanding == 1 && first.service.submitted == map[];
    assert (0, "L") in first.service.registry.roles;
    var second := Next(first, HandleNext(0));
    assert V.SubmittedIn(second.service.pending) == {"b"};
  }

  /** The count really goes wrong: two flight controllers without a school under one label suffice. */
  lemma RefusalBreaksTheCount()
    ensures exists run: seq<World> :: |run| > 0 && IsRun(run) && Miscounts(run[|run| - 1])
  {
    hide IsRun, Miscounts;
    var run := ReachBothProvisioned();
    BothProvisionedMiscounts();
    assert |run| > 0 && IsRun(run) && Miscounts(run[|run| - 1]);
  }
}
