/**
 The `commands` table as atomic steps. `past` keeps, for every command id ever stored, the statuses
 its row has had in order; it outlives the row.
 */
module CommandStore {
  import opened Wrappers
  import opened CommandState
  import opened PostgresWorker

  datatype Table = Table(rows: map<Id, Record>, past: map<Id, seq<Status>>)

  ghost predicate SameKey(a: Record, b: Record) {
    a.source == b.source && a.request == b.request
  }

  /** Rows sit under their own id, (source_id, request_id) is unique, and each row is where its history ends. */
  ghost predicate Coherent(t: Table) {
    && (forall i :: i in t.rows || i in t.past ==> EntryCoherent(t, i))
    && UniqueKeys(t.rows)
  }

  ghost predicate EntryCoherent(t: Table, i: Id) {
    && i in t.past && |t.past[i]| > 0 && IsHistory(t.past[i])
    && (if i in t.rows then t.rows[i].id == i && t.rows[i].status == Last(t, i) else IsTerminal(Last(t, i)))
  }

  ghost predicate UniqueKeys(rows: map<Id, Record>) {
    forall i, j :: i in rows && j in rows && SameKey(rows[i], rows[j]) ==> i == j
  }

  function Last(t: Table, id: Id): Status
    requires id in t.past
  {
    if |t.past[id]| > 0 then t.past[id][|t.past[id]| - 1] else Pending
  }

  ghost function FindRow(t: Table, source: string, request: string): (found: Option<Record>) {
    if i :| i in t.rows && t.rows[i].source == source && t.rows[i].request == request then Some(t.rows[i]) else None
  }

  function FindById(t: Table, id: Id): Option<Record> {
    if id in t.rows then Some(t.rows[id]) else None
  }

  /** INSERT .. ON CONFLICT (source_id, request_id): the row that holds the key afterwards. */
  ghost function Insert(t: Table, record: Record): (Table, Record) {
    match FindRow(t, record.source, record.request)
    case Some(existing) => (t, existing)
    case None => (Table(t.rows[record.id := record], t.past[record.id := [record.status]]), record)
  }

  function Updated(record: Record, desired: Status, update: Update): Record {
    record.(status := desired, errorCode := update.errorCode, deviceAck := update.deviceAck,
            dispatchedAt := update.dispatchedAt, completedAt := update.completedAt, updatedAt := update.updatedAt)
  }

  /** The illegal-transition guard and the compare-and-set. */
  function Transition(t: Table, id: Id, expected: Status, desired: Status, update: Update): (Table, Value) {
    if !CanTransition(expected, desired) then (t, Error(Permanent, false))
    else if id !in t.rows || t.rows[id].status != expected then (t, Error(Permanent, true))
    else
      var updated := Updated(t.rows[id], desired, update);
      (Table(t.rows[id := updated], if id in t.past then t.past[id := t.past[id] + [desired]] else t.past[id := [desired]]),
       Stored(updated))
  }

  predicate Expired(record: Record, before: Time) {
    IsTerminal(record.status) && record.completedAt.Some? && record.completedAt.value < before
  }

  /** Any batch of expired terminal rows (the statement orders them; the order is not modelled). */
  ghost predicate IsCleanup(t: Table, before: Time, batch: nat, removed: set<Id>) {
    removed <= t.rows.Keys && |removed| <= batch && forall i :: i in removed ==> Expired(t.rows[i], before)
  }

  function Remove(t: Table, removed: set<Id>): Table {
    t.(rows := t.rows - removed)
  }

  predicate Recoverable(record: Record) {
    record.kind.Control? && !IsTerminal(record.status)
  }

  function Recovered(record: Record, now: Time): Record {
    record.(status := DeliveryUncertain, errorCode := Some("control_delivery_uncertain"), updatedAt := now,
            completedAt := Some(now))
  }

  /** Start-up: every active control command ends as delivery_uncertain. */
  function RecoverControls(t: Table, now: Time): Table {
    Table(
      map i | i in t.rows :: if Recoverable(t.rows[i]) then Recovered(t.rows[i], now) else t.rows[i],
      map i | i in t.past ::
        if i in t.rows && Recoverable(t.rows[i]) then t.past[i] + [DeliveryUncertain] else t.past[i])
  }

  // ---------------------------------------------------------------- what every step keeps

  /** Histories only grow, and nothing is ever added after a terminal status. */
  ghost predicate Extends(before: Table, after: Table) {
    forall i :: i in before.past ==>
      i in after.past && before.past[i] <= after.past[i] &&
      (|before.past[i]| > 0 && IsTerminal(Last(before, i)) ==> after.past[i] == before.past[i])
  }

  lemma {:induction false} LastIsReached(t: Table, id: Id, k: nat)
    requires Coherent(t) && id in t.past && k < |t.past[id]|
    ensures Precedes(t.past[id][k], Last(t, id))
  {
    HistoryIsOrdered(t.past[id], k, |t.past[id]| - 1);
  }

  /** A status a row once had may be followed by the last one of any later table. */
  lemma SeenPrecedesLater(before: Table, after: Table, id: Id, status: Status)
    requires Coherent(before) && Coherent(after) && Extends(before, after)
    requires id in before.past && status in before.past[id]
    ensures id in after.past && status in after.past[id] && Precedes(status, Last(after, id))
  {
    var k :| 0 <= k < |before.past[id]| && before.past[id][k] == status;
    assert after.past[id][k] == status;
    LastIsReached(after, id, k);
  }

  lemma ExtendsTransitive(a: Table, b: Table, c: Table)
    requires Extends(a, b) && Extends(b, c)
    ensures Extends(a, c)
  {
    forall i | i in a.past
      ensures i in c.past && a.past[i] <= c.past[i] &&
              (|a.past[i]| > 0 && IsTerminal(Last(a, i)) ==> c.past[i] == a.past[i])
    {
      assert i in b.past;
    }
  }

  lemma InsertKeeps(t: Table, record: Record)
    requires Coherent(t)
    requires record.id in t.past ==> record.id in t.rows && SameKey(t.rows[record.id], record)
    ensures var (after, row) := Insert(t, record);
            && Coherent(after) && Extends(t, after)
            && SameKey(row, record) && row.id in after.rows && after.rows[row.id] == row
            && (if after == t then true else row == record && record.id !in t.past)
            && (after != t ==> after == Table(t.rows[record.id := record], t.past[record.id := [record.status]]))
            && (record.id in t.past ==> after == t && row == t.rows[record.id])
  {
    var (after, row) := Insert(t, record);
    assert record.id in t.rows ==> EntryCoherent(t, record.id);
    if i :| i in t.rows && t.rows[i].source == record.source && t.rows[i].request == record.request {
      assert EntryCoherent(t, row.id) by {
        var j :| j in t.rows && t.rows[j] == row;
        assert EntryCoherent(t, j);
      }
      if record.id in t.past {
        assert SameKey(t.rows[record.id], t.rows[row.id]);
      }
    } else {
      assert record.id !in t.rows;
      forall i | i in after.rows || i in after.past ensures EntryCoherent(after, i) {
        assert i != record.id ==> EntryCoherent(t, i);
      }
      forall i, j | i in after.rows && j in after.rows && SameKey(after.rows[i], after.rows[j]) ensures i == j {
        if i != record.id && j != record.id {
          assert SameKey(t.rows[i], t.rows[j]);
        }
      }
    }
  }

  lemma TransitionKeeps(t: Table, id: Id, expected: Status, desired: Status, update: Update)
    requires Coherent(t)
    ensures var (after, value) := Transition(t, id, expected, desired, update);
            && Coherent(after) && Extends(t, after)
            && (if value.Stored? then
                  && id in t.rows && CanTransition(t.rows[id].status, desired)
                  && value.stored == t.rows[id].(status := desired, errorCode := update.errorCode, deviceAck := update.deviceAck,
                                                 dispatchedAt := update.dispatchedAt, completedAt := update.completedAt,
                                                 updatedAt := update.updatedAt)
                  && after == Table(t.rows[id := value.stored], t.past[id := t.past[id] + [desired]])
                else after == t && value.Error? && value.kind.Permanent? &&
                     (value.stateChanged <==> CanTransition(expected, desired)))
  {
    var (after, value) := Transition(t, id, expected, desired, update);
    if value.Stored? {
      assert EntryCoherent(t, id);
      HistoryGrows(t.past[id], desired);
      forall i | i in after.rows || i in after.past ensures EntryCoherent(after, i) {
        assert EntryCoherent(t, i);
      }
      forall i, j | i in after.rows && j in after.rows && SameKey(after.rows[i], after.rows[j]) ensures i == j {
        assert SameKey(t.rows[i], t.rows[j]);
      }
    }
  }

  lemma RemoveKeeps(t: Table, before: Time, batch: nat, removed: set<Id>)
    requires Coherent(t) && IsCleanup(t, before, batch, removed)
    ensures Coherent(Remove(t, removed)) && Extends(t, Remove(t, removed))
    ensures forall i :: i in t.rows && i !in Remove(t, removed).rows ==>
              IsTerminal(t.rows[i].status) && t.rows[i].completedAt.Some? && t.rows[i].completedAt.value < before
    ensures forall i :: i in Remove(t, removed).rows ==> i in t.rows && Remove(t, removed).rows[i] == t.rows[i]
  {
    var after := Remove(t, removed);
    forall i | i in after.rows || i in after.past ensures EntryCoherent(after, i) {
      assert EntryCoherent(t, i);
    }
    forall i, j | i in after.rows && j in after.rows && SameKey(after.rows[i], after.rows[j]) ensures i == j {
      assert SameKey(t.rows[i], t.rows[j]);
    }
  }

  lemma RecoverKeepsEntry(t: Table, now: Time, i: Id)
    requires i in t.past && EntryCoherent(t, i)
    ensures EntryCoherent(RecoverControls(t, now), i)
    ensures t.past[i] <= RecoverControls(t, now).past[i]
    ensures IsTerminal(Last(t, i)) ==> RecoverControls(t, now).past[i] == t.past[i]
  {
    if i in t.rows && Recoverable(t.rows[i]) {
      HistoryGrows(t.past[i], DeliveryUncertain);
    }
  }

  /** Exactly the active control commands change, and each of them ends as delivery_uncertain. */
  ghost predicate ControlsEnded(t: Table, after: Table, now: Time) {
    && after.rows.Keys == t.rows.Keys
    && (forall i :: i in t.rows && t.rows[i].kind.Control? && !IsTerminal(t.rows[i].status) ==>
          after.rows[i] == t.rows[i].(status := DeliveryUncertain, errorCode := Some("control_delivery_uncertain"),
                                      updatedAt := now, completedAt := Some(now)))
    && (forall i :: i in t.rows && (t.rows[i].kind.Config? || IsTerminal(t.rows[i].status)) ==> after.rows[i] == t.rows[i])
  }

  lemma RecoverEnds(t: Table, now: Time)
    ensures ControlsEnded(t, RecoverControls(t, now), now)
  {
  }

  lemma RecoverKeepsCoherent(t: Table, now: Time)
    requires Coherent(t)
    ensures Coherent(RecoverControls(t, now)) && Extends(t, RecoverControls(t, now))
  {
    var after := RecoverControls(t, now);
    forall i | i in after.rows || i in after.past
      ensures EntryCoherent(after, i) && i in t.past && t.past[i] <= after.past[i] &&
              (IsTerminal(Last(t, i)) ==> after.past[i] == t.past[i])
    {
      assert EntryCoherent(t, i);
      RecoverKeepsEntry(t, now, i);
    }
    forall i, j | i in after.rows && j in after.rows && SameKey(after.rows[i], after.rows[j]) ensures i == j {
      assert SameKey(t.rows[i], t.rows[j]);
    }
  }

  lemma RecoverKeeps(t: Table, now: Time)
    requires Coherent(t)
    ensures Coherent(RecoverControls(t, now)) && Extends(t, RecoverControls(t, now))
    ensures ControlsEnded(t, RecoverControls(t, now), now)
    ensures forall i :: i in RecoverControls(t, now).rows ==> !Recoverable(RecoverControls(t, now).rows[i])
  {
    RecoverKeepsCoherent(t, now);
    RecoverEnds(t, now);
    hide Coherent, Extends;
  }
}
