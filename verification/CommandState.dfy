/** The status machine of a command row, and the record that carries it. */
module CommandState {
  import opened Wrappers

  type Id = string
  type Time = int

  datatype CommandType = Config | Control

  datatype Status =
    | Pending
    | Dispatched
    | InProgress
    | Succeeded
    | Failed
    | Timeout
    | DeliveryUncertain

  predicate IsTerminal(status: Status) {
    status.Succeeded? || status.Failed? || status.Timeout? || status.DeliveryUncertain?
  }

  predicate CanTransition(from: Status, to: Status) {
    match from
    case Pending => to.Dispatched? || to.Failed? || to.Timeout? || to.DeliveryUncertain?
    case Dispatched =>
      to.InProgress? || to.Succeeded? || to.Failed? || to.Timeout? || to.DeliveryUncertain?
    case InProgress =>
      to.InProgress? || to.Succeeded? || to.Failed? || to.Timeout? || to.DeliveryUncertain?
    case _ => false
  }

  /** One row of the `commands` table. */
  datatype Record = Record(
    id: Id,
    kind: CommandType,
    source: string,
    request: string,
    target: Option<string>,
    payload: string,
    status: Status,
    errorCode: Option<string>,
    deviceAck: Option<string>,
    createdAt: Time,
    dispatchedAt: Option<Time>,
    updatedAt: Time,
    completedAt: Option<Time>)

  datatype Update = Update(
    errorCode: Option<string>,
    deviceAck: Option<string>,
    dispatchedAt: Option<Time>,
    completedAt: Option<Time>,
    updatedAt: Time)

  datatype Idempotency = Same | Conflict

  function CompareRequest(existing: Record, payload: string): Idempotency {
    if existing.payload == payload then Same else Conflict
  }

  /** The columns no update ever touches. */
  predicate SameIdentity(a: Record, b: Record) {
    a.id == b.id && a.kind == b.kind && a.source == b.source && a.request == b.request &&
    a.target == b.target && a.payload == b.payload
  }

  // ---------------------------------------------------------------- order of statuses

  function Rank(status: Status): nat {
    match status
    case Pending => 0
    case Dispatched => 1
    case InProgress => 2
    case _ => 3
  }

  /** `b` is `a` or may come after it: the closure of CanTransition (see PrecedesIsReachability). */
  predicate Precedes(a: Status, b: Status) {
    a == b || (!IsTerminal(a) && Rank(a) <= Rank(b))
  }

  /** Every status follows from the one before it by a legal transition. */
  ghost predicate IsHistory(past: seq<Status>) {
    forall i, j :: 0 <= i < |past| && 0 <= j < |past| && j == i + 1 ==> CanTransition(past[i], past[j])
  }

  lemma HistoryGrows(past: seq<Status>, next: Status)
    requires IsHistory(past)
    requires |past| > 0 ==> CanTransition(past[|past| - 1], next)
    ensures IsHistory(past + [next])
  {
  }

  lemma {:induction false} HistoryIsOrdered(past: seq<Status>, i: nat, j: nat)
    requires IsHistory(past) && i <= j < |past|
    ensures Precedes(past[i], past[j])
    decreases j
  {
    if i < j {
      HistoryIsOrdered(past, i, j - 1);
      assert CanTransition(past[j - 1], past[j]);
    }
  }

  /**
   A transition leads forward, progress alone may repeat, and a command nobody has seen go out neither
   runs nor succeeds. Exactly the terminal statuses lead nowhere.
   */
  lemma TransitionsLeadForward(a: Status, b: Status)
    ensures CanTransition(a, b) <==>
              Rank(a) < 3 && Rank(a) <= Rank(b) && (a == b ==> a.InProgress?) && (a.Pending? ==> !b.InProgress? && !b.Succeeded?)
    ensures IsTerminal(a) <==> forall c :: !CanTransition(a, c)
  {
    assert !IsTerminal(a) ==> CanTransition(a, Failed);
  }

  /** Terminal statuses are absorbing and Precedes is exactly reachability along CanTransition. */
  lemma PrecedesIsReachability(a: Status, b: Status)
    ensures Precedes(a, b) <==>
            exists past: seq<Status> :: |past| > 0 && IsHistory(past) && past[0] == a && past[|past| - 1] == b
  {
    if Precedes(a, b) {
      var full := [a, Dispatched, InProgress, b];
      if a == b {
        assert IsHistory([a]) && |[a]| > 0 && [a][0] == a && [a][|[a]| - 1] == b;
      } else if CanTransition(a, b) {
        assert IsHistory([a, b]) && |[a, b]| > 0 && [a, b][0] == a && [a, b][|[a, b]| - 1] == b;
      } else {
        var via := [a, Dispatched, b];
        assert a == Pending && (b == InProgress || b == Succeeded);
        assert IsHistory(via) && |via| > 0 && via[0] == a && via[|via| - 1] == b;
      }
    }
    if past: seq<Status> :| |past| > 0 && IsHistory(past) && past[0] == a && past[|past| - 1] == b {
      HistoryIsOrdered(past, 0, |past| - 1);
    }
  }
}
