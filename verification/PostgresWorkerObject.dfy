/** The database thread as an object: each method is one critical section, `RunOnce` one turn of the loop. */
module PostgresWorkerObject {
  import opened Wrappers
  import opened W = PostgresWorker
  import D = DeviceTypes

  /** What a turn of the loop took out of the queues. */
  datatype Work =
    | NoWork
    | ReconnectWork
    | CommandWork(operation: nat, task: Task)
    | ProvisionWork(device: D.DeviceId, provision: Provision)
    | WriteWork(device: D.DeviceId, write: D.DeviceWrite)

  /** What the store port would answer to the next call of each kind. */
  datatype StoreAnswers = StoreAnswers(
    command: Value,
    provision: Answer<D.DeviceRecord>,
    write: Answer<()>,
    reconnect: Answer<()>)

  /**
   Every accepted operation yields one result, in order of submission: the results emitted so far
   followed by the FIFO are the accepted operations. Only a refused migration drops what waits.
   */
  ghost predicate LaneOk(accepted: seq<nat>, emitted: seq<(nat, Value)>, queue: seq<(nat, Task)>, operations: set<nat>,
                         dropped: bool) {
    && Numbers(emitted) <= accepted
    && (!dropped ==> accepted == Numbers(emitted) + Numbers(queue))
    && (dropped ==> queue == [])
    && (forall o :: o in operations <==> o in Numbers(queue))
    && (forall k, l :: 0 <= k < l < |queue| ==> queue[k].0 != queue[l].0)
  }

  lemma LaneAccepts(accepted: seq<nat>, emitted: seq<(nat, Value)>, queue: seq<(nat, Task)>, operations: set<nat>,
                    item: (nat, Task))
    requires LaneOk(accepted, emitted, queue, operations, false) && item.0 !in operations
    ensures LaneOk(accepted + [item.0], emitted, queue + [item], operations + {item.0}, false)
  {
    NumbersAppend(queue, item);
    forall k | 0 <= k < |queue| ensures queue[k].0 != item.0 {
      assert Numbers(queue)[k] in operations;
    }
  }

  lemma LaneEmits(accepted: seq<nat>, emitted: seq<(nat, Value)>, queue: seq<(nat, Task)>, operations: set<nat>, value: Value)
    requires LaneOk(accepted, emitted, queue, operations, false) && |queue| > 0
    ensures LaneOk(accepted, emitted + [(queue[0].0, value)], queue[1..], operations - {queue[0].0}, false)
  {
    NumbersAppend(emitted, (queue[0].0, value));
    NumbersHead(queue);
    RestWithoutHead(queue);
    LaneMoves(accepted, Numbers(emitted), queue[0].0, Numbers(queue[1..]), operations);
  }

  lemma LaneMoves(accepted: seq<nat>, sent: seq<nat>, head: nat, rest: seq<nat>, operations: set<nat>)
    requires accepted == sent + ([head] + rest) && head !in rest
    requires forall o :: o in operations <==> o in [head] + rest
    ensures accepted == (sent + [head]) + rest && sent + [head] <= accepted
    ensures forall o :: o in operations - {head} <==> o in rest
  {
    forall o ensures o in operations - {head} <==> o in rest {
      assert o in [head] + rest <==> o == head || o in rest;
    }
  }

  lemma RestWithoutHead(queue: seq<(nat, Task)>)
    requires |queue| > 0 && forall k, l :: 0 <= k < l < |queue| ==> queue[k].0 != queue[l].0
    ensures queue[0].0 !in Numbers(queue[1..])
    ensures forall k, l :: 0 <= k < l < |queue[1..]| ==> queue[1..][k].0 != queue[1..][l].0
  {
  }

  lemma NotDropped(accepted: seq<nat>, emitted: seq<(nat, Value)>, queue: seq<(nat, Task)>, operations: set<nat>, dropped: bool)
    requires LaneOk(accepted, emitted, queue, operations, dropped) && |queue| > 0
    ensures !dropped
  {
  }

  lemma LaneDrops(accepted: seq<nat>, emitted: seq<(nat, Value)>, queue: seq<(nat, Task)>, operations: set<nat>, dropped: bool)
    requires LaneOk(accepted, emitted, queue, operations, dropped)
    ensures LaneOk(accepted, emitted, [], {}, true)
  {
  }

  class PostgresWorker {
    const limit: nat
    var commands: seq<(nat, Task)>
    var operations: set<nat>
    var provisions: map<D.DeviceId, Provision>
    var provisioning: set<D.DeviceId>
    var writes: map<D.DeviceId, D.DeviceWrite>
    var unavailable: bool
    var accepting: bool
    var drainRequested: bool
    var stopped: bool
    /** The command the loop is running; it still belongs to the FIFO. */
    var running: Option<(nat, Task)>
    var commandResults: seq<(nat, Value)>
    var results: seq<D.DatabaseResult>
    ghost var accepted: seq<nat>
    ghost var dropped: bool

    function Queue(): seq<(nat, Task)>
      reads this
    {
      (if running.Some? then [running.value] else []) + commands
    }

    function State(): Worker
      reads this
    {
      Worker(Queue(), operations, limit, provisions, provisioning, writes, unavailable, accepting, stopped)
    }

    ghost predicate Valid()
      reads this
    {
      && LaneOk(accepted, commandResults, Queue(), operations, dropped)
      && (dropped || stopped ==> !accepting)
    }

    constructor (limit: nat)
      ensures Valid() && accepted == [] && commandResults == [] && results == []
      ensures State() == Worker([], {}, limit, map[], {}, map[], false, true, false)
      ensures running.None? && !drainRequested && !dropped
    {
      this.limit := limit;
      commands, operations, provisions, provisioning, writes := [], {}, map[], {}, map[];
      unavailable, accepting, drainRequested, stopped := false, true, false, false;
      running, commandResults, results, accepted, dropped := None, [], [], [], false;
    }

    // -------------------------------------------------------------- submission

    method SubmitProvision(registration: D.Registration, at: D.Time) returns (ok: bool)
      requires Valid()
      modifies this`provisions
      ensures Valid()
      ensures (State(), ok) == W.SubmitProvision(old(State()), registration, at)
      ensures ok <==> accepting && !unavailable && registration.device !in provisioning
      ensures provisions == if ok then old(provisions)[registration.device := Provision(registration, at)] else old(provisions)
    {
      if !accepting || unavailable {
        return false;
      }
      if registration.device in provisioning {
        return false;
      }
      provisions := provisions[registration.device := Provision(registration, at)];
      return true;
    }

    method SubmitWrite(write: D.DeviceWrite) returns (ok: bool)
      requires Valid()
      modifies this`writes
      ensures Valid()
      ensures (State(), ok) == W.SubmitWrite(old(State()), write)
      ensures ok <==> accepting
      ensures !ok ==> writes == old(writes)
    {
      if !accepting {
        return false;
      }
      MergeWrite(write);
      return true;
    }

    /** The pending write of a device keeps every flag and the newer record. */
    method MergeWrite(write: D.DeviceWrite)
      modifies this`writes
      ensures State() == W.MergeWrite(old(State()), write)
      ensures forall d :: d != write.record.device ==> (d in writes <==> d in old(writes))
      ensures var merged := writes[write.record.device];
              && (forall g: D.Group :: merged.Flags(g) <==>
                    write.Flags(g) || (write.record.device in old(writes) && old(writes)[write.record.device].Flags(g)))
              && (if write.record.device in old(writes) && old(writes)[write.record.device].revision > write.revision
                  then merged.revision == old(writes)[write.record.device].revision &&
                       merged.record == old(writes)[write.record.device].record
                  else merged.revision == write.revision && merged.record == write.record)
              && (merged.urgency.Immediate? <==>
                    write.urgency.Immediate? ||
                    (write.record.device in old(writes) && old(writes)[write.record.device].urgency.Immediate?))
    {
      var device := write.record.device;
      if device !in writes {
        writes := writes[device := write];
        return;
      }
      var current := writes[device];
      current := current.(writeMetadata := current.writeMetadata || write.writeMetadata);
      current := current.(writeStatus := current.writeStatus || write.writeStatus);
      current := current.(writeTelemetry := current.writeTelemetry || write.writeTelemetry);
      if write.revision >= current.revision {
        current := current.(record := write.record, revision := write.revision);
      }
      if write.urgency.Immediate? {
        current := current.(urgency := D.Immediate);
      }
      assert current == W.Merge(writes[device], write);
      MergedFacts(writes[device], write);
      hide W.Merge;
      writes := writes[device := current];
    }

    method SubmitCommand(operation: nat, task: Task) returns (ok: bool)
      requires Valid()
      modifies this`commands, this`operations, this`accepted
      ensures Valid()
      ensures (State(), ok) == W.SubmitCommand(old(State()), operation, task)
      ensures ok <==> accepting && operation !in old(operations) && |old(operations)| < limit
      ensures Queue() == if ok then old(Queue()) + [(operation, task)] else old(Queue())
      ensures accepted == if ok then old(accepted) + [operation] else old(accepted)
    {
      hide LaneOk;
      if !accepting || operation in operations || |operations| >= limit {
        return false;
      }
      operations := operations + {operation};
      commands := commands + [(operation, task)];
      accepted := accepted + [operation];
      assert Queue() == old(Queue()) + [(operation, task)];
      LaneAccepts(old(accepted), commandResults, old(Queue()), old(operations), (operation, task));
      return true;
    }

    // -------------------------------------------------------------- the loop

    predicate HasWork()
      reads this
    {
      commands != [] || provisions != map[] || writes != map[]
    }

    method Finish()
      requires Valid()
      modifies this`stopped, this`accepting
      ensures Valid() && stopped && !accepting
    {
      stopped := true;
      accepting := false;
    }

    /** First critical section of a turn: what to do next, in the order of the loop. */
    method Take(stop: bool, due: bool) returns (work: Work)
      requires Valid() && running.None?
      modifies this
      ensures Valid() && dropped == old(dropped) && accepted == old(accepted)
      ensures commandResults == old(commandResults) && results == old(results) && drainRequested == old(drainRequested)
      ensures running.Some? <==> work.CommandWork?
      ensures work.ReconnectWork? <==> !stop && old(unavailable) && due
      ensures work.CommandWork? <==> !stop && !old(unavailable) && old(commands) != []
      ensures work.ProvisionWork? <==> !stop && !old(unavailable) && old(commands) == [] && old(provisions) != map[]
      ensures work.WriteWork? <==>
                !stop && !old(unavailable) && old(commands) == [] && old(provisions) == map[] && old(writes) != map[]
      ensures match work
              case NoWork => State() == old(State()).(stopped := stopped, accepting := accepting)
              case ReconnectWork => State() == old(State())
              case CommandWork(operation, task) => State() == old(State()) && running == Some((operation, task))
              case ProvisionWork(device, provision) =>
                device in old(provisions) && provision == old(provisions)[device] &&
                State() == W.TakeProvision(old(State()), device)
              case WriteWork(device, write) =>
                device in old(writes) && (State(), write) == W.TakeWrite(old(State()), device)
    {
      hide LaneOk;
      if stop {
        Finish();
        return NoWork;
      }
      if unavailable {
        return if due then ReconnectWork else NoWork;
      } else if commands != [] {
        running := Some(commands[0]);
        commands := commands[1..];
        assert Queue() == old(Queue());
        return CommandWork(running.value.0, running.value.1);
      } else if provisions != map[] {
        var device :| device in provisions;
        work := ProvisionWork(device, provisions[device]);
        provisioning := provisioning + {device};
        provisions := provisions - {device};
        return;
      } else if writes != map[] {
        var device :| device in writes;
        work := WriteWork(device, writes[device]);
        writes := writes - {device};
        return;
      } else if drainRequested {
        Finish();
      }
      return NoWork;
    }

    method GoUnavailable()
      requires Valid()
      modifies this`unavailable, this`provisions
      ensures Valid() && State() == W.Outage(old(State()))
    {
      unavailable := true;
      provisions := map[];
    }

    /** The store answered the running command. An outage puts it back in front of the FIFO. */
    method FinishCommand(value: Value)
      requires Valid() && running.Some?
      modifies this`unavailable, this`provisions, this`commands, this`running, this`operations, this`commandResults
      ensures Valid() && running.None?
      ensures var (after, result) := W.FinishCommand(old(State()), value);
              && State() == after
              && commandResults == (if result.Some? then old(commandResults) + [result.value] else old(commandResults))
      ensures if value.Error? && value.kind.Unavailable?
              then Queue() == old(Queue()) && commandResults == old(commandResults) && unavailable && provisions == map[]
              else Queue() == old(Queue())[1..] && unavailable == old(unavailable) &&
                   commandResults == old(commandResults) + [(old(running).value.0, value)]
    {
      hide LaneOk;
      var task := running.value;
      assert !dropped by {
        NotDropped(accepted, commandResults, Queue(), operations, dropped);
      }
      if value.Error? && value.kind.Unavailable? {
        GoUnavailable();
        commands := [task] + commands;
        running := None;
        assert Queue() == old(Queue());
        return;
      }
      operations := operations - {task.0};
      LaneEmits(accepted, commandResults, old(Queue()), old(operations), value);
      commandResults := commandResults + [(task.0, value)];
      running := None;
      assert Queue() == old(Queue())[1..];
    }

    method FinishProvision(device: D.DeviceId, answer: Answer<D.DeviceRecord>)
      requires Valid()
      modifies this`unavailable, this`provisions, this`provisioning, this`results
      ensures Valid()
      ensures var (after, result) := W.FinishProvision(old(State()), device, answer);
              State() == after && results == old(results) + [result]
      ensures device !in provisioning && device !in provisions
      ensures match answer
              case Done(record) => results == old(results) + [D.Provisioned(device, record)] && unavailable == old(unavailable)
              case Refused(Unavailable) =>
                results == old(results) + [D.DatabaseUnavailable(device, 0)] && unavailable && provisions == map[]
              case Refused(Permanent) =>
                results == old(results) + [D.PermanentFailure(Some(device), 0)] && unavailable == old(unavailable)
    {
      hide LaneOk;
      provisioning := provisioning - {device};
      provisions := provisions - {device};
      match answer {
        case Done(record) => results := results + [D.Provisioned(device, record)];
        case Refused(Unavailable) =>
          GoUnavailable();
          results := results + [D.DatabaseUnavailable(device, 0)];
        case Refused(Permanent) => results := results + [D.PermanentFailure(Some(device), 0)];
      }
    }

    method FinishWrite(write: D.DeviceWrite, answer: Answer<()>)
      requires Valid()
      modifies this`unavailable, this`provisions, this`writes, this`results
      ensures Valid()
      ensures var (after, result) := W.FinishWrite(old(State()), write, answer);
              State() == after && results == old(results) + [result]
      ensures match answer
              case Done(_) =>
                results == old(results) + [D.WriteCompleted(write.record.device, write.revision)] && writes == old(writes)
              case Refused(Unavailable) =>
                && results == old(results) + [D.DatabaseUnavailable(write.record.device, write.revision)]
                && unavailable && provisions == map[] && write.record.device in writes
                && forall g: D.Group :: write.Flags(g) ==> writes[write.record.device].Flags(g)
              case Refused(Permanent) =>
                results == old(results) + [D.PermanentFailure(Some(write.record.device), write.revision)] && writes == old(writes)
    {
      hide LaneOk;
      var device := write.record.device;
      match answer {
        case Done(_) => results := results + [D.WriteCompleted(device, write.revision)];
        case Refused(Unavailable) =>
          MergeWrite(write);
          GoUnavailable();
          results := results + [D.DatabaseUnavailable(device, write.revision)];
        case Refused(Permanent) => results := results + [D.PermanentFailure(Some(device), write.revision)];
      }
    }

    method FinishReconnect(answer: Answer<()>)
      requires Valid() && running.None? && unavailable
      modifies this
      ensures Valid() && running.None? && commandResults == old(commandResults) && accepted == old(accepted)
      ensures dropped <==> old(dropped) || answer == Refused(Permanent)
      ensures var (after, result) := W.Reconnect(old(State()), answer);
              State() == after && results == (if result.Some? then old(results) + [result.value] else old(results))
      ensures match answer
              case Done(_) => !unavailable && results == old(results) + [D.DatabaseRecovered] && writes == old(writes)
              case Refused(Unavailable) => State() == old(State()) && results == old(results)
              case Refused(Permanent) =>
                stopped && !accepting && commands == [] && writes == map[] && provisions == map[] &&
                results == old(results) + [D.PermanentFailure(None, 0)]
    {
      LaneDrops(accepted, commandResults, Queue(), operations, dropped);
      hide LaneOk;
      match answer {
        case Done(_) =>
          unavailable := false;
          results := results + [D.DatabaseRecovered];
        case Refused(Unavailable) =>
        case Refused(Permanent) =>
          results := results + [D.PermanentFailure(None, 0)];
          provisions, writes, commands, operations := map[], map[], [], {};
          dropped := true;
          accepting := false;
          Finish();
      }
    }

    /** One turn of the loop: the first critical section, the call of the store, and the second. */
    method RunOnce(stop: bool, due: bool, answers: StoreAnswers) returns (work: Work)
      requires Valid() && running.None?
      modifies this
      ensures Valid() && running.None? && accepted == old(accepted)
      ensures work.NoWork? ==> State() == old(State()).(stopped := stopped, accepting := accepting)
      ensures !work.NoWork? ==> State() == Turn(old(State()), work, answers).0
      ensures commandResults == old(commandResults) + (if work.NoWork? then [] else Turn(old(State()), work, answers).1)
      ensures results == old(results) + (if work.NoWork? then [] else Turn(old(State()), work, answers).2)
    {
      hide LaneOk;
      work := Take(stop, due);
      match work {
        case NoWork =>
        case ReconnectWork => FinishReconnect(answers.reconnect);
        case CommandWork(_, _) => FinishCommand(answers.command);
        case ProvisionWork(device, _) => FinishProvision(device, answers.provision);
        case WriteWork(_, write) => FinishWrite(write, answers.write);
      }
    }

    method RequestDrain()
      requires Valid()
      modifies this`accepting, this`drainRequested
      ensures Valid() && State() == old(State()).(accepting := false) && drainRequested
    {
      accepting := false;
      drainRequested := true;
    }
  }

  /** A piece of work is one the state offers. */
  predicate Offers(w: Worker, work: Work) {
    match work
    case NoWork => false
    case ReconnectWork => w.unavailable
    case CommandWork(operation, task) => !w.unavailable && |w.commands| > 0 && w.commands[0] == (operation, task)
    case ProvisionWork(device, provision) =>
      !w.unavailable && w.commands == [] && device in w.provisions && w.provisions[device] == provision
    case WriteWork(device, write) =>
      !w.unavailable && w.commands == [] && w.provisions == map[] && device in w.writes && w.writes[device] == write
  }

  /** What a turn does with its work: the state after it, the command results and the device results it emits. */
  function Turn(w: Worker, work: Work, answers: StoreAnswers): (Worker, seq<(nat, Value)>, seq<D.DatabaseResult>) {
    if !Offers(w, work) then (w, [], [])
    else
      match work
      case ReconnectWork =>
        var (after, result) := W.Reconnect(w, answers.reconnect);
        (after, [], if result.Some? then [result.value] else [])
      case CommandWork(_, _) =>
        var (after, result) := W.FinishCommand(w, answers.command);
        (after, if result.Some? then [result.value] else [], [])
      case ProvisionWork(device, _) =>
        var (after, result) := W.FinishProvision(W.TakeProvision(w, device), device, answers.provision);
        (after, [], [result])
      case WriteWork(device, write) =>
        var (after, result) := W.FinishWrite(W.TakeWrite(w, device).0, write, answers.write);
        (after, [], [result])
      case NoWork => (w, [], [])
  }

  lemma MergedFacts(current: D.DeviceWrite, write: D.DeviceWrite)
    ensures var merged := W.Merge(current, write);
            && (forall g: D.Group :: merged.Flags(g) <==> current.Flags(g) || write.Flags(g))
            && (if current.revision > write.revision then merged.revision == current.revision && merged.record == current.record
                else merged.revision == write.revision && merged.record == write.record)
            && (merged.urgency.Immediate? <==> write.urgency.Immediate? || current.urgency.Immediate?)
  {
  }

  lemma NumbersAppend<X>(queue: seq<(nat, X)>, item: (nat, X))
    ensures Numbers(queue + [item]) == Numbers(queue) + [item.0]
  {
  }

  lemma NumbersHead<X>(queue: seq<(nat, X)>)
    requires |queue| > 0
    ensures Numbers(queue) == [queue[0].0] + Numbers(queue[1..])
  {
  }
}
