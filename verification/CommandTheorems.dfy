/** What holds in every state of every run of the command system. */
module CommandTheorems {
  import opened Wrappers
  import opened CommandState
  import opened PostgresWorker
  import opened CommandService
  import opened CommandInvariant
  import opened CommandHandlers
  import opened CommandSteps
  import opened CommandRuns
  import opened CommandLogs
  import T = CommandStore

  // ---------------------------------------------------------------- at-most-once control delivery

  predicate SameRequest(a: Handover, b: Handover) {
    a.source == b.source && a.request == b.request
  }

  lemma InsertedRowIsThere(w: World, now: Time, answers: Answers)
    requires Inv(w) && Enabled(w, Result(now, answers))
    requires w.results[0].0 in w.service.operations
    requires HandedByInsert(w.service, Next(w, Result(now, answers)).service, w.service.operations[w.results[0].0], w.results[0].1)
    ensures var id := w.results[0].1.stored.id; id in w.table.rows && w.table.rows[id].status.Pending?
  {
    hide HandleResult, StoreSide, ServiceSide, LineOk, TasksOk;
    var op := w.service.operations[w.results[0].0];
    var value := w.results[0].1;
    StoreFacts(w);
    assert ValueMatches(op, value);
    assert OperationOk(w.birth, w.activated, w.service.handed, op);
    assert Inserts(w.service.operations, w.results[0].0, value.stored.id);
    assert T.EntryCoherent(w.table, value.stored.id);
  }

  lemma StoreFacts(w: World)
    requires Inv(w)
    ensures TableOk(w.table, w.birth) && HandedOk(w.birth, w.service.handed)
    ensures SentOk(w.table, w.birth, w.known, w.service.sent) && SentOrdered(w.service.sent)
    ensures ResultsOk(w.table, w.birth, w.known, w.results)
  {
  }

  lemma RowOfHandover(w: World, h: Handover)
    requires TableOk(w.table, w.birth) && HandoverOk(w.birth, h) && h.id in w.table.rows
    ensures w.table.rows[h.id].source == h.source && w.table.rows[h.id].request == h.request
    ensures w.table.rows[h.id].kind == h.kind
  {
    assert T.EntryCoherent(w.table, h.id);
    assert RecordOk(w.birth, w.table.rows[h.id]);
  }

  /** A control command reaches the device publisher when its row is stored and pending, and was never handed over before. */
  ghost predicate GoodHandover(w: World, k: nat)
    requires k < |w.service.handed|
  {
    var h := w.service.handed[k];
    && h.id in w.table.rows && w.table.rows[h.id].status.Pending?
    && w.table.rows[h.id].source == h.source && w.table.rows[h.id].request == h.request
    && forall j :: 0 <= j < k ==>
         w.service.handed[j].id != h.id &&
         (SameRequest(w.service.handed[j], h) && w.service.handed[j].kind.Control? ==> w.service.handed[j].id !in w.table.rows)
  }

  ghost predicate GoodHandovers(before: World, after: World) {
    forall k :: |before.service.handed| <= k < |after.service.handed| && after.service.handed[k].kind.Control? ==>
      GoodHandover(after, k)
  }

  lemma OneRowPerKey(t: T.Table, i: Id, j: Id)
    requires T.Coherent(t) && i in t.rows && j in t.rows && T.SameKey(t.rows[i], t.rows[j])
    ensures i == j
  {
  }

  lemma HandoverInStep(w: World, step: Step, k: nat)
    requires Inv(w) && Enabled(w, step) && Inv(Next(w, step))
    requires |w.service.handed| <= k < |Next(w, step).service.handed|
    requires Next(w, step).service.handed[k].kind.Control?
    ensures GoodHandover(Next(w, step), k)
  {
    hide Inv, Enabled;
    var after := Next(w, step);
    var h := after.service.handed[k];
    StepLogs(w, step);
    StoreFacts(after);
    assert HandoverOk(after.birth, h);
    InsertedRowIsThere(w, step.now, step.answers);
    RowOfHandover(after, h);
    forall j | 0 <= j < k
      ensures after.service.handed[j].id != h.id
      ensures SameRequest(after.service.handed[j], h) && after.service.handed[j].kind.Control? ==>
                after.service.handed[j].id !in after.table.rows
    {
      var earlier := after.service.handed[j];
      assert HandoverOk(after.birth, earlier);
      if earlier.id in after.table.rows && SameRequest(earlier, h) {
        RowOfHandover(after, earlier);
        OneRowPerKey(after.table, earlier.id, h.id);
      }
    }
  }

  lemma HandoversInStep(w: World, step: Step)
    requires Inv(w) && Enabled(w, step) && Inv(Next(w, step))
    ensures GoodHandovers(w, Next(w, step))
  {
    hide Inv, Enabled, Next, GoodHandover;
    var after := Next(w, step);
    forall k | |w.service.handed| <= k < |after.service.handed| && after.service.handed[k].kind.Control?
      ensures GoodHandover(after, k)
    {
      HandoverInStep(w, step, k);
    }
  }

  /**
   At most once: in every state no control command id was handed over twice, and of two hand-overs
   for the same (source_id, request_id) at most one has its row in the table. Each hand-over
   happened while its row was stored and pending, when every earlier row of that request was gone.
   */
  lemma ControlDeliveredAtMostOnce(run: seq<World>, i: nat)
    requires IsRun(run) && i < |run|
    ensures var handed := run[i].service.handed;
            forall a, b :: 0 <= a < b < |handed| && handed[a].kind.Control? ==>
              handed[a].id != handed[b].id &&
              (handed[b].kind.Control? && SameRequest(handed[a], handed[b]) ==>
                 handed[a].id !in run[i].table.rows || handed[b].id !in run[i].table.rows)
    ensures i + 1 < |run| ==> GoodHandovers(run[i], run[i + 1])
  {
    hide Inv, Enabled, Next, GoodHandover;
    InvariantHolds(run, i);
    var w := run[i];
    StoreFacts(w);
    var handed := w.service.handed;
    forall a, b | 0 <= a < b < |handed| && SameRequest(handed[a], handed[b])
      ensures handed[a].id in w.table.rows && handed[b].id in w.table.rows ==> handed[a].id == handed[b].id
    {
      if handed[a].id in w.table.rows && handed[b].id in w.table.rows {
        RowOfHandover(w, handed[a]);
        RowOfHandover(w, handed[b]);
        OneRowPerKey(w.table, handed[a].id, handed[b].id);
      }
    }
    if i + 1 < |run| {
      InvariantHolds(run, i + 1);
      assert Follows(run[i], run[i + 1]);
      var step :| Enabled(w, step) && run[i + 1] == Next(w, step);
      HandoversInStep(run[i], step);
    }
  }

  // ---------------------------------------------------------------- source ACKs

  /**
   ACKs are never ahead of the database and never go back: every acknowledged status is one its row
   has had, two ACKs of a command follow the order of CanTransition, and after a terminal ACK only
   that status is repeated. Each ACK goes to the source of its row.
   */
  lemma AcksFollowTheRow(run: seq<World>, i: nat)
    requires IsRun(run) && i < |run|
    ensures var (sent, t) := (run[i].service.sent, run[i].table);
            && (forall k :: 0 <= k < |sent| && sent[k].StatusAck? ==>
                  sent[k].record.id in t.past && sent[k].record.status in t.past[sent[k].record.id] &&
                  sent[k].source == sent[k].record.source)
            && (forall k, l :: 0 <= k < l < |sent| && sent[k].StatusAck? && sent[l].StatusAck? &&
                               sent[k].record.id == sent[l].record.id ==>
                  Precedes(sent[k].record.status, sent[l].record.status) &&
                  (IsTerminal(sent[k].record.status) ==> sent[l].record.status == sent[k].record.status))
  {
    hide Inv;
    InvariantHolds(run, i);
    StoreFacts(run[i]);
    var sent := run[i].service.sent;
    forall k | 0 <= k < |sent| && sent[k].StatusAck?
      ensures sent[k].record.id in run[i].table.past &&
              sent[k].record.status in run[i].table.past[sent[k].record.id] && sent[k].source == sent[k].record.source
    {
      assert AckOk(run[i].table, run[i].birth, run[i].known, sent[k]);
    }
    forall k, l | 0 <= k < l < |sent| && sent[k].StatusAck? && sent[l].StatusAck? &&
                  sent[k].record.id == sent[l].record.id
      ensures Precedes(sent[k].record.status, sent[l].record.status)
    {
      assert InOrder(AckRecord(sent[k]), AckRecord(sent[l]));
    }
  }

  // ---------------------------------------------------------------- legal transitions

  /** Every transition task queued or deferred is legal. */
  lemma TransitionsAreLegal(run: seq<World>, i: nat)
    requires IsRun(run) && i < |run|
    ensures var s := run[i].service;
            && (forall k :: 0 <= k < |s.worker.commands| && s.worker.commands[k].1.TransitionCommand? ==>
                  CanTransition(s.worker.commands[k].1.expected, s.worker.commands[k].1.desired))
            && (forall d :: d in s.deferred ==>
                  s.deferred[d].task.TransitionCommand? &&
                  CanTransition(s.deferred[d].task.expected, s.deferred[d].task.desired))
  {
    hide Inv, IsRun;
    InvariantHolds(run, i);
    LegalInState(run[i]);
  }

  lemma LegalInState(w: World)
    requires Inv(w)
    ensures forall k :: 0 <= k < |w.service.worker.commands| && w.service.worker.commands[k].1.TransitionCommand? ==>
              CanTransition(w.service.worker.commands[k].1.expected, w.service.worker.commands[k].1.desired)
    ensures forall d :: d in w.service.deferred ==>
              w.service.deferred[d].task.TransitionCommand? &&
              CanTransition(w.service.deferred[d].task.expected, w.service.deferred[d].task.desired)
  {
    hide StoreSide;
    forall k | 0 <= k < |w.service.worker.commands| && w.service.worker.commands[k].1.TransitionCommand?
      ensures CanTransition(w.service.worker.commands[k].1.expected, w.service.worker.commands[k].1.desired)
    {
      assert TaskMatches(w.service.operations[w.service.worker.commands[k].0], w.service.worker.commands[k].1);
    }
    forall d | d in w.service.deferred
      ensures w.service.deferred[d].task.TransitionCommand? &&
              CanTransition(w.service.deferred[d].task.expected, w.service.deferred[d].task.desired)
    {
      assert DeferredEntryOk(w.birth, w.activated, d, w.service.deferred[d]);
    }
  }

  /** The store's illegal-transition guard never answers: a refused transition is a lost compare-and-set. */
  lemma GuardNeverFires(run: seq<World>, i: nat)
    requires IsRun(run) && i < |run|
    requires |run[i].service.worker.commands| > 0 && run[i].service.worker.commands[0].1.TransitionCommand?
    ensures var (after, value) := ApplyTask(run[i].table, run[i].service.worker.commands[0].1, {});
            value != Error(Permanent, false)
  {
    hide Inv, IsRun;
    InvariantHolds(run, i);
    ApplyKeeps(run[i], {});
  }

  // ---------------------------------------------------------------- bounds and accounting

  /** Active commands plus pending lookups and inserts stay within the configured limit. */
  lemma AdmissionIsBounded(run: seq<World>, i: nat)
    requires IsRun(run) && i < |run|
    ensures |run[i].service.active| + |Admitting(run[i].service.operations)| <= run[i].service.capacity
  {
    hide Inv, IsRun;
    InvariantHolds(run, i);
    BoundFacts(run[i]);
  }

  lemma BoundFacts(w: World)
    requires Inv(w)
    ensures |w.service.active| + |Admitting(w.service.operations)| <= w.service.capacity
    ensures w.service.outstanding == |w.service.operations|
    ensures LineOk(w.service.operations.Keys, w.service.nextOperation, Line(w.results, w.service.worker.commands),
                   w.service.worker.stopped)
  {
  }

  /**
   Outstanding operations are counted exactly. Until the worker stops for good, the unhandled results
   followed by the FIFO hold each of them exactly once, in the order of submission.
   */
  lemma OperationsAreAccounted(run: seq<World>, i: nat)
    requires IsRun(run) && i < |run|
    ensures var s := run[i].service;
            var line := Line(run[i].results, s.worker.commands);
            && s.outstanding == |s.operations|
            && (forall k, l :: 0 <= k < l < |line| ==> line[k] < line[l])
            && (forall o :: o in line ==> o in s.operations)
            && (!s.worker.stopped ==> forall o :: o in s.operations ==> o in line)
  {
    hide Inv, IsRun;
    InvariantHolds(run, i);
    BoundFacts(run[i]);
  }

  /** Never more than one cleanup is outstanding. */
  lemma OneCleanupAtATime(run: seq<World>, i: nat)
    requires IsRun(run) && i < |run|
    ensures var operations := run[i].service.operations;
            forall o, p :: o in operations && p in operations && operations[o].kind.Cleanup? && operations[p].kind.Cleanup? ==>
              o == p
  {
    hide Inv, IsRun;
    InvariantHolds(run, i);
    CleanupFacts(run[i]);
  }

  lemma CleanupFacts(w: World)
    requires Inv(w)
    ensures var operations := w.service.operations;
            forall o, p :: o in operations && p in operations && operations[o].kind.Cleanup? && operations[p].kind.Cleanup? ==>
              o == p
  {
    hide StoreSide, ServiceSide, OperationsOk, TasksOk, ValuesOk, PristineOk, FrontOk, LineOk;
    var operations := w.service.operations;
    forall o, p | o in operations && p in operations && operations[o].kind.Cleanup? && operations[p].kind.Cleanup?
      ensures o == p
    {
      assert Cleans(operations, o) && Cleans(operations, p);
    }
  }

  // ---------------------------------------------------------------- who makes a command run and succeed

  /** The ACK arrives in the step from one state to the other. */
  ghost predicate Arrives(w: World, after: World, receipt: Receipt) {
    exists step :: Enabled(w, step) && after == Next(w, step) && step.Receive? &&
                   step.message == AckFromDevice(receipt.device, receipt.kind, Some(receipt.ack))
  }

  ghost predicate ArrivedBefore(run: seq<World>, i: nat, receipt: Receipt) {
    exists j :: 0 <= j < i < |run| && Arrives(run[j], run[j + 1], receipt)
  }

  /** Where an origin comes from: the first table, or an insert that neither runs nor succeeds; its ACKs all arrived. */
  ghost predicate OriginOk(run: seq<World>, i: nat, id: Id, origin: Origin)
    requires |run| > 0
  {
    && (origin.record.status.Pending? || origin.record.status.Failed? ||
        (id in run[0].table.rows && origin.record == run[0].table.rows[id]))
    && (forall receipt :: receipt in origin.acks ==> ArrivedBefore(run, i, receipt))
  }

  /** What one step does to an origin: nothing, one more ACK, or its creation. */
  lemma StepBirth(w: World, step: Step, id: Id)
    requires Enabled(w, step) && id in Next(w, step).birth
    ensures var origin := Next(w, step).birth[id];
            if id in w.birth then
              && origin.record == w.birth[id].record
              && forall receipt :: receipt in origin.acks && receipt !in w.birth[id].acks ==>
                   Arrives(w, Next(w, step), receipt)
            else (origin.record.status.Pending? || origin.record.status.Failed?) && origin.acks == {}
  {
    hide Enabled, HandleMessage, HandleResult, NewRecord, Arrives, Next;
    BirthOfStep(w, step);
    if step.Receive? && step.message.AckFromDevice? && step.message.ack.Some? {
      ReceiptArrives(w, step, Receipt(step.message.device, step.message.kind, step.message.ack.value));
    } else if step.Result? {
      assert step.answers.freshId !in w.birth by {
        FreshIdIsNew(w, step);
      }
      forall context: Context {
        BornUnfinished(context, step.answers);
      }
    }
  }

  /** Only an ACK that arrives and a request that is new touch the origins. */
  lemma BirthOfStep(w: World, step: Step)
    requires Enabled(w, step)
    ensures step.Result? ==> |w.results| > 0
    ensures Next(w, step).birth ==
            match step
            case Receive(message, _, _) => BirthAfter(w.birth, message)
            case Result(now, answers) => AfterResult(w, now, answers).birth
            case _ => w.birth
  {
    hide HandleMessage, HandleCompletion, ScanOne, ScheduleCleanup, RetryDeferred, LoadActive, HandleResult;
    hide ApplyTask, FinishCommand, Received, IsLoadable, T.IsCleanup;
  }

  lemma FreshIdIsNew(w: World, step: Step)
    requires Enabled(w, step) && step.Result?
    ensures step.answers.freshId !in w.birth
  {
  }

  lemma BornUnfinished(context: Context, answers: Answers)
    ensures Born(context, answers).acks == {}
    ensures var status := Born(context, answers).record.status; status.Pending? || status.Failed?
  {
  }

  lemma ReceiptArrives(w: World, step: Step, receipt: Receipt)
    requires Enabled(w, step) && step.Receive?
    requires step.message == AckFromDevice(receipt.device, receipt.kind, Some(receipt.ack))
    ensures Arrives(w, Next(w, step), receipt)
  {
    hide Enabled, Next;
  }

  lemma {:induction false} OriginsAreKnown(run: seq<World>, i: nat, id: Id)
    requires IsRun(run) && i < |run| && id in run[i].birth
    ensures OriginOk(run, i, id, run[i].birth[id])
    decreases i
  {
    hide Enabled, Next, Arrives;
    if i > 0 {
      assert Follows(run[i - 1], run[i]);
      var step :| Enabled(run[i - 1], step) && run[i] == Next(run[i - 1], step);
      StepBirth(run[i - 1], step, id);
      if id in run[i - 1].birth {
        OriginsAreKnown(run, i - 1, id);
        forall receipt | receipt in run[i].birth[id].acks ensures ArrivedBefore(run, i, receipt) {
          if receipt in run[i - 1].birth[id].acks {
            assert ArrivedBefore(run, i - 1, receipt);
            var j :| 0 <= j < i - 1 && Arrives(run[j], run[j + 1], receipt);
          }
        }
      }
    }
  }

  /** The row was like that at first, or an ACK from its target device arrived that says so. */
  ghost predicate WasConfirmed(run: seq<World>, i: nat, record: Record)
    requires |run| > 0
  {
    || (record.id in run[0].table.rows && run[0].table.rows[record.id].status == record.status)
    || exists receipt :: ArrivedBefore(run, i, receipt) && Confirms(record, receipt, record.status)
  }

  lemma RecordsAreConfirmed(run: seq<World>, i: nat, record: Record)
    requires IsRun(run) && i < |run| && RecordOk(run[i].birth, record)
    requires record.status.Succeeded? || record.status.InProgress?
    ensures WasConfirmed(run, i, record)
  {
    hide IsRun, ArrivedBefore;
    OriginsAreKnown(run, i, record.id);
    var origin := run[i].birth[record.id];
    if origin.record.status != record.status {
      var receipt :| receipt in origin.acks && Confirms(origin.record, receipt, record.status);
      assert Confirms(record, receipt, record.status);
    }
  }

  /**
   A row that succeeded, or is in progress, got there by an ACK of its target device: one that accepted the
   command, or reported progress; only rows already like that before the first start are excepted. The
   same is true of every success and every progress a source was ever told of.
   */
  lemma SuccessWasAcknowledged(run: seq<World>, i: nat)
    requires IsRun(run) && i < |run|
    ensures var (rows, sent) := (run[i].table.rows, run[i].service.sent);
            && (forall id :: id in rows && (rows[id].status.Succeeded? || rows[id].status.InProgress?) ==>
                  rows[id].id == id && WasConfirmed(run, i, rows[id]))
            && (forall k :: 0 <= k < |sent| && sent[k].StatusAck? &&
                            (sent[k].record.status.Succeeded? || sent[k].record.status.InProgress?) ==>
                  WasConfirmed(run, i, sent[k].record))
  {
    hide Inv, IsRun, WasConfirmed, RecordOk;
    InvariantHolds(run, i);
    StoreFacts(run[i]);
    var (rows, sent) := (run[i].table.rows, run[i].service.sent);
    forall id | id in rows && (rows[id].status.Succeeded? || rows[id].status.InProgress?)
      ensures rows[id].id == id && WasConfirmed(run, i, rows[id])
    {
      assert T.EntryCoherent(run[i].table, id);
      RecordsAreConfirmed(run, i, rows[id]);
    }
    forall k | 0 <= k < |sent| && sent[k].StatusAck? &&
               (sent[k].record.status.Succeeded? || sent[k].record.status.InProgress?)
      ensures WasConfirmed(run, i, sent[k].record)
    {
      assert AckOk(run[i].table, run[i].birth, run[i].known, sent[k]);
      RecordsAreConfirmed(run, i, sent[k].record);
    }
  }

  // ---------------------------------------------------------------- across a run

  /** Nothing sent or handed over is taken back, row histories only grow, and a terminal row never changes again. */
  lemma {:induction false} NothingIsUndone(run: seq<World>, i: nat, j: nat)
    requires IsRun(run) && i <= j < |run|
    ensures LogsGrow(run[i].service, run[j].service)
    ensures T.Extends(run[i].table, run[j].table)
    decreases j
  {
    hide Inv, Init, Enabled, Next;
    if i == j {
      ExtendsItself(run[i].table);
    } else {
      NothingIsUndone(run, i, j - 1);
      InvariantHolds(run, j - 1);
      assert Follows(run[j - 1], run[j]);
      var step :| Enabled(run[j - 1], step) && run[j] == Next(run[j - 1], step);
      NextKeeps(run[j - 1], step);
      StepLogs(run[j - 1], step);
      T.ExtendsTransitive(run[i].table, run[j - 1].table, run[j].table);
    }
  }
}
