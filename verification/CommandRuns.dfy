/**
 Runs of the command system: any interleaving of source requests, device ACKs, database results,
 publish completions, timeouts, outages, lost answers, crashes and restarts. The theorems are at
 the end.
 */
module CommandRuns {
  import opened Wrappers
  import opened CommandState
  import opened PostgresWorker
  import opened CommandService
  import opened CommandInvariant
  import opened CommandHandlers
  import opened CommandSteps
  import B = CommandBlocks
  import T = CommandStore

  datatype Step =
    // the business thread
    | Receive(message: Message, now: Time, gate: Option<string>)
    | Result(now: Time, answers: Answers)
    | Completion(token: nat, delivered: bool, now: Time)
    | Scan(id: Id, now: Time, online: bool, accepted: bool)
    | Cleanup(now: Time)
    | Retry(id: Id)
    | DatabaseFlag(available: bool)
    | MqttFlag(available: bool)
    | Online(device: string)
    // the database thread
    | Execute(removed: set<Id>, committed: bool, lost: Option<ErrorKind>)
    | DeviceWork(worker: Worker)
    | MigrationRefused
    // the process
    | Restart(loaded: seq<Loaded>, now: Time, settings: Settings)

  ghost predicate Enabled(w: World, step: Step) {
    match step
    // the ACK parsers admit the statuses of their command type only
    case Receive(AckFromDevice(_, kind, Some(ack)), _, _) => AckBelongs(kind, ack.status)
    // a generated command id is new
    case Result(_, answers) => |w.results| > 0 && answers.freshId !in w.birth
    case Retry(id) => id in w.service.deferred
    case Execute(removed, _, _) =>
      !w.service.worker.unavailable && |w.service.worker.commands| > 0 &&
      var task := w.service.worker.commands[0].1;
      task.CleanupCommands? ==> T.IsCleanup(w.table, task.before, task.batch, removed)
    // outages, reconnections, provisioning, device writes and closing leave the FIFO alone
    case DeviceWork(worker) => SameLane(w.service.worker, worker)
    case MigrationRefused => w.service.worker.unavailable
    case Restart(loaded, _, settings) => |ActiveRows(w.table)| <= settings.capacity && IsLoadable(w.table, loaded)
    case _ => true
  }

  /** A device ACK that arrives is remembered with its command. */
  function BirthAfter(birth: map<Id, Origin>, message: Message): map<Id, Origin> {
    if message.AckFromDevice? && message.ack.Some? then
      Received(birth, Receipt(message.device, message.kind, message.ack.value))
    else birth
  }

  ghost function AfterResult(w: World, now: Time, answers: Answers): World
    requires |w.results| > 0
  {
    var (o, value) := w.results[0];
    var service := HandleResult(w.service, o, value, now, answers);
    World(service, w.results[1..], w.table,
          if o in w.service.operations && Creates(w.service.operations[o], value) then
            w.birth[answers.freshId := Born(w.service.operations[o].context, answers)]
          else w.birth,
          Learn(w.known, value),
          w.activated + service.active.Keys)
  }

  ghost function Next(w: World, step: Step): World
    requires Enabled(w, step)
  {
    match step
    case Receive(message, now, gate) =>
      w.(service := HandleMessage(w.service, message, now, gate), birth := BirthAfter(w.birth, message))
    case Result(now, answers) => AfterResult(w, now, answers)
    case Completion(token, delivered, now) => w.(service := HandleCompletion(w.service, token, delivered, now))
    case Scan(id, now, online, accepted) => w.(service := ScanOne(w.service, id, now, online, accepted))
    case Cleanup(now) => w.(service := ScheduleCleanup(w.service, now))
    case Retry(id) =>
      if w.service.deferred[id].task.TransitionCommand? && w.service.deferred[id].task.id == id then
        w.(service := RetryDeferred(w.service, id))
      else w
    case DatabaseFlag(available) => w.(service := SetDatabaseAvailable(w.service, available))
    case MqttFlag(available) => w.(service := SetMqttAvailable(w.service, available))
    case Online(device) => w.(service := TargetOnline(w.service, device))
    case Execute(removed, committed, lost) => Executed(w, removed, committed, lost)
    case DeviceWork(worker) => w.(service := w.service.(worker := worker))
    case MigrationRefused =>
      w.(service := w.service.(worker := Reconnect(w.service.worker, Refused(Permanent)).0))
    case Restart(loaded, now, settings) => Restarted(w, loaded, now, settings)
  }

  /** Before the first start: a stored table, and nothing sent or handed over yet. */
  ghost predicate Init(w: World) {
    && T.UniqueKeys(w.table.rows)
    && w.table.past == (map i | i in w.table.rows :: [w.table.rows[i].status])
    && (forall i :: i in w.table.rows ==> w.table.rows[i].id == i && (w.table.rows[i].kind.Config? ==> !w.table.rows[i].status.InProgress?))
    && w.birth.Keys == w.table.rows.Keys && (forall i :: i in w.birth ==> w.birth[i] == Origin(w.table.rows[i], {}))
    && w.service == FreshService(w.service, SettingsOf(w.service)) && w.service.sent == [] && w.service.handed == []
    && w.results == [] && w.known == map[] && w.activated == {}
  }

  lemma InitHolds(w: World)
    requires Init(w)
    ensures Inv(w)
  {
    forall i | i in w.table.rows || i in w.table.past ensures T.EntryCoherent(w.table, i) {
      assert w.table.past[i] == [w.table.rows[i].status];
    }
    BlankLane(w);
    BlankService(w);
  }

  lemma ResultKeeps(w: World, now: Time, answers: Answers)
    requires Inv(w) && |w.results| > 0 && answers.freshId !in w.birth
    ensures Inv(AfterResult(w, now, answers))
  {
    hide Inv, HandleValue, Absorbed;
    AbsorbKeeps(w);
    var op := w.service.operations[w.results[0].0];
    ValueKeeps(Absorb(w), op, w.results[0].1, now, answers);
    assert AfterResult(w, now, answers) == Handled(Absorb(w), op, w.results[0].1, now, answers);
  }

  lemma NextKeeps(w: World, step: Step)
    requires Inv(w) && Enabled(w, step)
    ensures Inv(Next(w, step)) && T.Extends(w.table, Next(w, step).table)
  {
    hide Inv, T.Extends, HandleMessage, HandleCompletion, ScanOne, ScheduleCleanup, RetryDeferred, Executed, Restarted;
    hide HandleResult, IsLoadable, T.IsCleanup;
    var s := w.service;
    ExtendsItself(w.table);
    match step
    case Receive(message, now, gate) => ReceiveKeeps(w, message, now, gate);
    case Result(now, answers) => ResultKeeps(w, now, answers);
    case Completion(token, delivered, now) => CompletionKeeps(w, token, delivered, now);
    case Scan(id, now, online, accepted) => ScanKeeps(w, id, now, online, accepted);
    case Cleanup(now) => CleanupKeeps(w, now);
    case Retry(id) => B.RetryKeeps(w, id);
    case DatabaseFlag(available) => FlagKeeps(w, available, s.mqttAvailable, s.recoveryStarted, s.nextCleanup);
    case MqttFlag(available) =>
      FlagKeeps(w, s.databaseAvailable, available, SetMqttAvailable(s, available).recoveryStarted, s.nextCleanup);
    case Online(device) =>
      FlagKeeps(w, s.databaseAvailable, s.mqttAvailable, TargetOnline(s, device).recoveryStarted, s.nextCleanup);
    case Execute(removed, committed, lost) => ExecutedKeeps(w, removed, committed, lost);
    case DeviceWork(worker) => SameLaneKeeps(w, worker);
    case MigrationRefused => StopKeeps(w, Reconnect(s.worker, Refused(Permanent)).0);
    case Restart(loaded, now, settings) => RestartKeeps(w, loaded, now, settings);
  }

  lemma ReceivedIds(birth: map<Id, Origin>, receipt: Receipt)
    ensures Received(birth, receipt).Keys == birth.Keys
  {
  }

  lemma ReceiveKeeps(w: World, message: Message, now: Time, gate: Option<string>)
    requires Inv(w) && Enabled(w, Receive(message, now, gate))
    ensures Inv(w.(service := HandleMessage(w.service, message, now, gate), birth := BirthAfter(w.birth, message)))
  {
    hide Inv, HandleDeviceAck, Received;
    match message
    case SourceRequest(_, _, _, _) => SourceRequestKeeps(w, message, now, gate);
    case AckFromDevice(device, kind, ack) =>
      if ack.Some? {
        var receipt := Receipt(device, kind, ack.value);
        ReceivedKeeps(w, receipt);
        assert receipt.ack.id in Received(w.birth, receipt) ==> receipt.ack.id in w.birth by {
          ReceivedIds(w.birth, receipt);
        }
        DeviceAckKeeps(w.(birth := Received(w.birth, receipt)), device, ack.value, kind, now);
      }
  }

  // ---------------------------------------------------------------- runs

  ghost predicate Follows(w: World, after: World) {
    exists step :: Enabled(w, step) && after == Next(w, step)
  }

  ghost predicate IsRun(run: seq<World>) {
    |run| > 0 && Init(run[0]) &&
    forall i, j :: 0 <= i < |run| && 0 <= j < |run| && j == i + 1 ==> Follows(run[i], run[j])
  }

  lemma {:induction false} InvariantHolds(run: seq<World>, i: nat)
    requires IsRun(run) && i < |run|
    ensures Inv(run[i])
    decreases i
  {
    hide Inv, Init;
    if i == 0 {
      InitHolds(run[0]);
    } else {
      InvariantHolds(run, i - 1);
      assert Follows(run[i - 1], run[i]);
      var step :| Enabled(run[i - 1], step) && run[i] == Next(run[i - 1], step);
      NextKeeps(run[i - 1], step);
    }
  }
}
