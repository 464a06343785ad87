/** The durable delivery table and the workers that own its rows. */
module DeliveryQueue {
  import opened Models

  /** `ids` are the event ids the payload parses to: they depend only on the delivery,
      so every replay of a delivery produces the same ones. */
  datatype DeliveryRow = DeliveryRow(key: string, ids: seq<EventId>, state: DeliveryState, attempts: nat)

  /** What a worker is doing with the delivery in row `row`. */
  datatype Worker = Working(row: nat, next: nat) | Failing(row: nat)

  /** Rows are listed in insertion order, which is `created_at` order. */
  datatype Queue = Queue(rows: seq<DeliveryRow>, workers: map<nat, Worker>, up: bool, maxAttempts: nat)

  // --- storage transactions -------------------------------------------------------

  predicate Known(rows: seq<DeliveryRow>, key: string) {
    exists i :: 0 <= i < |rows| && rows[i].key == key
  }

  function Saved(rows: seq<DeliveryRow>, key: string, ids: seq<EventId>): seq<DeliveryRow> {
    if Known(rows, key) then rows else rows + [DeliveryRow(key, ids, Pending, 0)]
  }

  /** Index of the oldest pending delivery, or the number of rows when there is none. */
  function OldestPending(rows: seq<DeliveryRow>): (i: nat)
    ensures i <= |rows|
    ensures i < |rows| ==> rows[i].state.Pending?
    ensures forall j :: 0 <= j < i ==> !rows[j].state.Pending?
  {
    if rows == [] then 0
    else if rows[0].state.Pending? then 0
    else
      var k := OldestPending(rows[1..]);
      assert forall j :: 1 <= j < k + 1 ==> rows[j] == rows[1..][j - 1];
      k + 1
  }

  function Moved(rows: seq<DeliveryRow>, i: nat, state: DeliveryState): seq<DeliveryRow>
    requires i < |rows|
  {
    rows[i := rows[i].(state := state)]
  }

  function FailedOnce(rows: seq<DeliveryRow>, i: nat, maxAttempts: nat): seq<DeliveryRow>
    requires i < |rows|
  {
    var attempts := rows[i].attempts + 1;
    rows[i := rows[i].(attempts := attempts, state := if attempts >= maxAttempts then Failed else Pending)]
  }

  function Reset(row: DeliveryRow): DeliveryRow {
    if row.state.Processing? then row.(state := Pending) else row
  }

  function ResetAll(rows: seq<DeliveryRow>): seq<DeliveryRow> {
    seq(|rows|, i requires 0 <= i < |rows| => Reset(rows[i]))
  }

  // --- the workers -------------------------------------------------------------------

  datatype Step =
    | Accept(key: string, ids: seq<EventId>)  // save_delivery
    | ClaimNext(w: nat)                       // claim_next_delivery
    | ClaimRow(w: nat, row: nat)              // claim_delivery
    | Advance(w: nat)                         // one event handled
    | Stumble(w: nat)                         // any exception while processing
    | Finish(w: nat)                          // complete_delivery
    | GiveUp(w: nat)                          // fail_delivery
    | Vanish(w: nat)                          // complete or fail itself raised
    | Die                                     // the process is gone
    | Restart                                 // recover_stale_deliveries
    | Wait                                    // nothing happens to the table

  function Empty(maxAttempts: nat): Queue { Queue([], map[], true, maxAttempts) }

  predicate CanClaim(q: Queue, w: nat, row: nat) {
    q.up && w !in q.workers && row < |q.rows| && q.rows[row].state.Pending?
  }

  function Take(q: Queue, w: nat, row: nat): Queue {
    if CanClaim(q, w, row) then q.(rows := Moved(q.rows, row, Processing), workers := q.workers[w := Working(row, 0)])
    else q
  }

  /** Worker `w` still has an event of its delivery to handle. */
  predicate HasEvent(q: Queue, w: nat) {
    && q.up && w in q.workers && q.workers[w].Working? && q.workers[w].row < |q.rows|
    && q.workers[w].next < |q.rows[q.workers[w].row].ids|
  }

  function EventOf(q: Queue, w: nat): EventId
    requires HasEvent(q, w)
  {
    q.rows[q.workers[w].row].ids[q.workers[w].next]
  }

  predicate IsDone(q: Queue, w: nat) {
    && w in q.workers && q.workers[w].Working? && q.workers[w].row < |q.rows|
    && q.workers[w].next == |q.rows[q.workers[w].row].ids|
  }

  predicate IsFailing(q: Queue, w: nat) {
    w in q.workers && q.workers[w].Failing? && q.workers[w].row < |q.rows|
  }

  function Next(q: Queue, a: Step): Queue {
    match a
    case Accept(key, ids) => if q.up then q.(rows := Saved(q.rows, key, ids)) else q
    case ClaimNext(w) => Take(q, w, OldestPending(q.rows))
    case ClaimRow(w, row) => Take(q, w, row)
    case Advance(w) =>
      if HasEvent(q, w) then q.(workers := q.workers[w := q.workers[w].(next := q.workers[w].next + 1)]) else q
    case Stumble(w) =>
      if w in q.workers && q.workers[w].Working? then q.(workers := q.workers[w := Failing(q.workers[w].row)]) else q
    case Finish(w) =>
      if IsDone(q, w) then q.(rows := Moved(q.rows, q.workers[w].row, Completed), workers := q.workers - {w}) else q
    case GiveUp(w) =>
      if IsFailing(q, w)
      then q.(rows := FailedOnce(q.rows, q.workers[w].row, q.maxAttempts), workers := q.workers - {w})
      else q
    case Vanish(w) => q.(workers := q.workers - {w})
    case Die => q.(workers := map[], up := false)
    case Restart => if q.up then q else q.(rows := ResetAll(q.rows), up := true)
    case Wait => q
  }

  // --- what every step keeps -----------------------------------------------------------

  predicate RowOk(row: DeliveryRow, done: set<EventId>, maxAttempts: nat) {
    && (row.state.Pending? || row.state.Processing? ==> row.attempts < maxAttempts)
    && (row.state.Failed? <==> row.attempts >= maxAttempts)
    && (row.state.Completed? ==> forall id | id in row.ids :: id in done)
  }

  predicate WorkerOk(rows: seq<DeliveryRow>, done: set<EventId>, w: Worker) {
    && w.row < |rows|
    && rows[w.row].state.Processing?
    && (w.Working? ==>
          w.next <= |rows[w.row].ids| && forall k :: 0 <= k < w.next ==> rows[w.row].ids[k] in done)
  }

  ghost predicate SingleOwner(q: Queue) {
    forall v, w | v in q.workers && w in q.workers && v != w :: q.workers[v].row != q.workers[w].row
  }

  /** `done` is the set of events that are counted and whose policy ran. */
  ghost predicate QueueOk(q: Queue, done: set<EventId>) {
    && q.maxAttempts > 0
    && (!q.up ==> q.workers == map[])
    && (forall i :: 0 <= i < |q.rows| ==> RowOk(q.rows[i], done, q.maxAttempts))
    && (forall w | w in q.workers :: WorkerOk(q.rows, done, q.workers[w]))
    && SingleOwner(q)
  }

  lemma MoreDone(q: Queue, done: set<EventId>, done': set<EventId>)
    requires QueueOk(q, done) && done <= done'
    ensures QueueOk(q, done')
  {
  }

  /** Handing a row on keeps every other owner. */
  lemma RowHandedOn(q: Queue, w: nat, row: DeliveryRow, done: set<EventId>)
    requires QueueOk(q, done) && w in q.workers && RowOk(row, done, q.maxAttempts)
    ensures QueueOk(q.(rows := q.rows[q.workers[w].row := row], workers := q.workers - {w}), done)
  {
  }

  lemma TakeKeeps(q: Queue, w: nat, row: nat, done: set<EventId>)
    requires QueueOk(q, done)
    ensures QueueOk(Take(q, w, row), done)
  {
  }

  /** Every step keeps the queue invariant, provided the handled event is done by then. */
  lemma StepKeeps(q: Queue, a: Step, done: set<EventId>)
    requires QueueOk(q, done)
    requires a.Advance? && HasEvent(q, a.w) ==> EventOf(q, a.w) in done
    ensures QueueOk(Next(q, a), done)
  {
    match a
    case ClaimNext(w) => TakeKeeps(q, w, OldestPending(q.rows), done);
    case ClaimRow(w, row) => TakeKeeps(q, w, row, done);
    case Finish(w) =>
      if IsDone(q, w) { RowHandedOn(q, w, q.rows[q.workers[w].row].(state := Completed), done); }
    case GiveUp(w) =>
      if IsFailing(q, w) {
        RowHandedOn(q, w, FailedOnce(q.rows, q.workers[w].row, q.maxAttempts)[q.workers[w].row], done);
      }
    case _ =>
  }

  // --- whole runs -------------------------------------------------------------------------

  /** Row `i` keeps its delivery, and a completed or failed delivery never moves again. */
  lemma TerminalStays(q: Queue, a: Step, done: set<EventId>, i: nat)
    requires QueueOk(q, done) && i < |q.rows|
    ensures i < |Next(q, a).rows|
    ensures Next(q, a).rows[i].key == q.rows[i].key && Next(q, a).rows[i].ids == q.rows[i].ids
    ensures q.rows[i].state.Completed? || q.rows[i].state.Failed? ==> Next(q, a).rows[i] == q.rows[i]
  {
    match a
    case Finish(w) => if IsDone(q, w) { assert WorkerOk(q.rows, done, q.workers[w]); }
    case GiveUp(w) => if IsFailing(q, w) { assert WorkerOk(q.rows, done, q.workers[w]); }
    case _ =>
  }

  /** The step records a failed attempt at row `i`. */
  predicate Fails(q: Queue, a: Step, i: nat) {
    a.GiveUp? && a.w in q.workers && q.workers[a.w] == Failing(i) && i < |q.rows|
  }

  /** Only a recorded failure raises a row's attempts, and it sends the row back to pending or,
      with the last attempt used up, to failed. */
  lemma FailureIs(q: Queue, a: Step, i: nat)
    requires i < |q.rows|
    ensures var row, row' := q.rows[i], Next(q, a).rows[i];
      && row'.attempts == row.attempts + (if Fails(q, a, i) then 1 else 0)
      && (Fails(q, a, i) ==>
            row' == DeliveryRow(row.key, row.ids, if row.attempts + 1 < q.maxAttempts then Pending else Failed,
                                row.attempts + 1))
      && (row'.state.Failed? && !row.state.Failed? ==> Fails(q, a, i))
  {
  }

  /** A restart puts every row in processing back to pending, with the attempts it had, and no
      other; a new row has had none. */
  lemma RestartIs(q: Queue, i: nat)
    requires !q.up && i < |q.rows|
    ensures |Next(q, Restart).rows| == |q.rows|
    ensures var row, row' := q.rows[i], Next(q, Restart).rows[i];
      row' == if row.state == Processing then DeliveryRow(row.key, row.ids, Pending, row.attempts) else row
  {
  }

  lemma NewRowIs(q: Queue, a: Step, i: nat)
    requires |q.rows| <= i < |Next(q, a).rows|
    ensures i == |q.rows| && a.Accept? && Next(q, a).rows[i] == DeliveryRow(a.key, a.ids, Pending, 0)
  {
  }

  ghost predicate KeysUnique(rows: seq<DeliveryRow>) {
    forall i, j :: 0 <= i < j < |rows| ==> rows[i].key != rows[j].key
  }

  /** However often a delivery is sent again, it has one row. */
  lemma StepKeepsKeys(q: Queue, a: Step)
    requires KeysUnique(q.rows)
    ensures KeysUnique(Next(q, a).rows)
  {
  }

  /** How many more claims row `row` can cause before it is terminal. */
  function Fuel(row: DeliveryRow, maxAttempts: nat): nat {
    if row.state.Pending? && row.attempts < maxAttempts then maxAttempts - row.attempts
    else if row.state.Processing? && row.attempts < maxAttempts then maxAttempts - row.attempts - 1
    else 0
  }

  function TotalFuel(rows: seq<DeliveryRow>, maxAttempts: nat): nat {
    if rows == [] then 0 else Fuel(rows[0], maxAttempts) + TotalFuel(rows[1..], maxAttempts)
  }

  lemma {:induction false} FuelUpdate(rows: seq<DeliveryRow>, i: nat, row: DeliveryRow, m: nat)
    requires i < |rows|
    ensures TotalFuel(rows[i := row], m) == TotalFuel(rows, m) - Fuel(rows[i], m) + Fuel(row, m)
  {
    if i == 0 {
      assert rows[0 := row][1..] == rows[1..];
    } else {
      assert rows[i := row][1..] == rows[1..][i - 1 := row];
      FuelUpdate(rows[1..], i - 1, row, m);
    }
  }

  /** The attempts left of the pending rows alone. */
  function PendingFuel(rows: seq<DeliveryRow>, maxAttempts: nat): nat {
    if rows == [] then 0
    else (if rows[0].state.Pending? then Fuel(rows[0], maxAttempts) else 0) + PendingFuel(rows[1..], maxAttempts)
  }

  lemma {:induction false} PendingFuelUpdate(rows: seq<DeliveryRow>, i: nat, row: DeliveryRow, m: nat)
    requires i < |rows| && rows[i].state.Pending?
    ensures PendingFuel(rows[i := row], m)
         == PendingFuel(rows, m) - Fuel(rows[i], m) + (if row.state.Pending? then Fuel(row, m) else 0)
  {
    if i == 0 {
      assert rows[0 := row][1..] == rows[1..];
    } else {
      assert rows[i := row][1..] == rows[1..][i - 1 := row];
      PendingFuelUpdate(rows[1..], i - 1, row, m);
    }
  }

  predicate Claims(q: Queue, a: Step) {
    match a
    case ClaimNext(w) => CanClaim(q, w, OldestPending(q.rows))
    case ClaimRow(w, row) => CanClaim(q, w, row)
    case _ => false
  }

  /** A claim burns one unit of fuel, and nothing but new deliveries or a restart adds any. */
  lemma StepBurns(q: Queue, a: Step, done: set<EventId>)
    requires QueueOk(q, done) && !a.Accept? && !a.Restart?
    ensures TotalFuel(Next(q, a).rows, q.maxAttempts) + (if Claims(q, a) then 1 else 0)
         <= TotalFuel(q.rows, q.maxAttempts)
  {
    var m := q.maxAttempts;
    match a
    case ClaimNext(w) =>
      var i := OldestPending(q.rows);
      if CanClaim(q, w, i) { FuelUpdate(q.rows, i, q.rows[i].(state := Processing), m); }
    case ClaimRow(w, i) =>
      if CanClaim(q, w, i) { FuelUpdate(q.rows, i, q.rows[i].(state := Processing), m); }
    case Finish(w) =>
      if IsDone(q, w) {
        var i := q.workers[w].row;
        FuelUpdate(q.rows, i, q.rows[i].(state := Completed), m);
      }
    case GiveUp(w) =>
      if IsFailing(q, w) {
        var i := q.workers[w].row;
        assert WorkerOk(q.rows, done, q.workers[w]);
        FuelUpdate(q.rows, i, FailedOnce(q.rows, i, m)[i], m);
      }
    case _ =>
  }
}
