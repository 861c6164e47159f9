/** The two tables behave like one queue, keyed by notification id and ordered by (createdAt, id). */
module OutboxQueue {
  import opened Wrappers
  import opened ChannelOutbox

  type Queue = map<Id, Row>

  function All(o: Outbox): seq<Row> {
    o.terminal + o.clearance
  }

  predicate DistinctIds(rows: seq<Row>) {
    forall i, j | 0 <= i < j < |rows| :: rows[i].id != rows[j].id
  }

  function RowOf(rows: seq<Row>, id: Id): Option<Row> {
    if rows == [] then None
    else if rows[|rows| - 1].id == id then Some(rows[|rows| - 1])
    else RowOf(rows[..|rows| - 1], id)
  }

  function QueueOf(rows: seq<Row>): Queue {
    map id | id in (set r <- rows :: r.id) && RowOf(rows, id).Some? :: RowOf(rows, id).value
  }

  function View(o: Outbox): Queue {
    QueueOf(All(o))
  }

  // ---- The operations of the one queue ----

  function Expire(q: Queue, channel: Channel, now: Time): Queue {
    map id <- q :: Released(q[id], channel, now)
  }

  /** Expired leases of the channel are released, and the earliest ready notification is leased, if there is one. */
  ghost predicate Pulls(q: Queue, q': Queue, channel: Channel, leaseId: Id, now: Time, result: Option<Notification>) {
    var e := Expire(q, channel, now);
    match result
    case None => q' == e && forall id <- e :: !Due(e[id], channel, now)
    case Some(n) =>
      && n.id in e && Due(e[n.id], channel, now) && n == NotificationOf(e[n.id], leaseId)
      && (forall id <- e | id != n.id && Due(e[id], channel, now) :: Earlier(e[n.id], e[id]))
      && q' == e[n.id := Lease(e[n.id], leaseId, now)]
  }

  predicate Holds(q: Queue, channel: Channel, id: Id, leaseId: Id) {
    id in q && HoldsLease(q[id], channel, id, leaseId)
  }

  function Acked(q: Queue, id: Id): Queue
    requires id in q
  {
    q[id := q[id].(status := Delivered)]
  }

  ghost predicate Keyed(q: Queue) {
    forall id <- q :: q[id].id == id
  }

  /** The queue alone determines what a pull returns. */
  lemma PullIsDetermined(q: Queue, q1: Queue, q2: Queue, channel: Channel, leaseId: Id, now: Time,
                         r1: Option<Notification>, r2: Option<Notification>)
    requires Keyed(q) && Pulls(q, q1, channel, leaseId, now, r1) && Pulls(q, q2, channel, leaseId, now, r2)
    ensures r1 == r2 && q1 == q2
  {
  }

  // ---- The queue of a list of rows ----

  lemma {:induction false} RowOfAt(rows: seq<Row>, i: nat)
    requires DistinctIds(rows) && i < |rows|
    ensures RowOf(rows, rows[i].id) == Some(rows[i])
    decreases |rows|
  {
    if i < |rows| - 1 {
      RowOfAt(rows[..|rows| - 1], i);
    }
  }

  lemma QueueHas(rows: seq<Row>)
    requires DistinctIds(rows)
    ensures Keyed(QueueOf(rows))
    ensures forall i | 0 <= i < |rows| :: rows[i].id in QueueOf(rows) && QueueOf(rows)[rows[i].id] == rows[i]
    ensures forall id <- QueueOf(rows) :: exists i | 0 <= i < |rows| :: rows[i].id == id
  {
    forall i | 0 <= i < |rows| ensures rows[i].id in QueueOf(rows) && QueueOf(rows)[rows[i].id] == rows[i] {
      RowOfAt(rows, i);
    }
    forall id <- QueueOf(rows) ensures exists i | 0 <= i < |rows| :: rows[i].id == id {
      assert id in (set r <- rows :: r.id);
    }
  }

  ghost predicate Represents(rows: seq<Row>, q: Queue) {
    && DistinctIds(rows)
    && (forall i | 0 <= i < |rows| :: rows[i].id in q && q[rows[i].id] == rows[i])
    && (forall id <- q :: exists i | 0 <= i < |rows| :: rows[i].id == id)
  }

  lemma RepresentsIsView(rows: seq<Row>, q: Queue)
    requires Represents(rows, q)
    ensures QueueOf(rows) == q
  {
    QueueHas(rows);
    forall id <- q ensures id in QueueOf(rows) && QueueOf(rows)[id] == q[id] {
      var i :| 0 <= i < |rows| && rows[i].id == id;
    }
    forall id <- QueueOf(rows) ensures id in q {
      var i :| 0 <= i < |rows| && rows[i].id == id;
    }
  }

  // ---- Pull refines the one queue ----

  lemma ReleaseIsRowwise(rows: seq<Row>, channel: Channel, now: Time)
    ensures var released := ReleaseExpired(rows, channel, now);
      |released| == |rows|
      && forall i | 0 <= i < |rows| :: released[i] == Released(rows[i], channel, now) && released[i].id == rows[i].id
  {
  }

  lemma ReleasedRepresents(rows: seq<Row>, channel: Channel, now: Time)
    requires DistinctIds(rows)
    ensures Represents(ReleaseExpired(rows, channel, now), Expire(QueueOf(rows), channel, now))
  {
    var released := ReleaseExpired(rows, channel, now);
    ReleaseIsRowwise(rows, channel, now);
    QueueHas(rows);
    forall id <- Expire(QueueOf(rows), channel, now) ensures exists i | 0 <= i < |released| :: released[i].id == id {
      var i :| 0 <= i < |rows| && rows[i].id == id;
      assert released[i].id == id;
    }
  }

  lemma ReleaseKeepsIds(rows: seq<Row>, channel: Channel, now: Time)
    requires DistinctIds(rows)
    ensures DistinctIds(ReleaseExpired(rows, channel, now))
    ensures QueueOf(ReleaseExpired(rows, channel, now)) == Expire(QueueOf(rows), channel, now)
  {
    ReleasedRepresents(rows, channel, now);
    RepresentsIsView(ReleaseExpired(rows, channel, now), Expire(QueueOf(rows), channel, now));
  }

  lemma UpdateRow(rows: seq<Row>, i: nat, row: Row)
    requires DistinctIds(rows) && i < |rows| && row.id == rows[i].id
    ensures DistinctIds(rows[i := row]) && QueueOf(rows[i := row]) == QueueOf(rows)[row.id := row]
  {
    var rows' := rows[i := row];
    QueueHas(rows);
    var q := QueueOf(rows)[row.id := row];
    forall id <- q ensures exists j | 0 <= j < |rows'| :: rows'[j].id == id {
      if id == row.id { assert rows'[i].id == id; }
      else {
        var j :| 0 <= j < |rows| && rows[j].id == id;
        assert rows'[j].id == id;
      }
    }
    RepresentsIsView(rows', q);
  }

  predicate Best(rows: seq<Row>, i: nat, channel: Channel, now: Time) {
    && i < |rows| && Due(rows[i], channel, now)
    && forall j | 0 <= j < |rows| && Due(rows[j], channel, now) :: !Earlier(rows[j], rows[i])
  }

  lemma ReleaseBoth(o: Outbox, channel: Channel, now: Time)
    ensures ReleaseExpired(All(o), channel, now) == ReleaseExpired(o.terminal, channel, now) + ReleaseExpired(o.clearance, channel, now)
  {
  }

  /** The best row of two tables is the best row of their join. */
  lemma BestOfBoth(terminal: seq<Row>, clearance: seq<Row>, channel: Channel, now: Time) returns (at: Option<nat>)
    ensures var (t, c, rows) := (First(terminal, channel, now), First(clearance, channel, now), terminal + clearance);
      && (at.None? ==> forall j | 0 <= j < |rows| :: !Due(rows[j], channel, now))
      && (at.Some? ==> Best(rows, at.value, channel, now))
      && at == if t.Some? && (c.None? || !Earlier(clearance[c.value], terminal[t.value])) then t
               else if c.Some? then Some(|terminal| + c.value) else None
  {
    var (t, c) := (First(terminal, channel, now), First(clearance, channel, now));
    at := if t.Some? && (c.None? || !Earlier(clearance[c.value], terminal[t.value])) then t
          else if c.Some? then Some(|terminal| + c.value) else None;
  }

  /** Where in the joined tables the pulled row is. */
  lemma PullPicks(o: Outbox, channel: Channel, leaseId: Id, now: Time) returns (at: Option<nat>)
    ensures var (o', result) := PullNext(o, channel, leaseId, now);
      var released := ReleaseExpired(All(o), channel, now);
      && (at.None? <==> result.None?)
      && (at.None? ==> All(o') == released && forall j | 0 <= j < |released| :: !Due(released[j], channel, now))
      && (at.Some? ==>
            && Best(released, at.value, channel, now)
            && All(o') == released[at.value := Lease(released[at.value], leaseId, now)]
            && result == Some(NotificationOf(released[at.value], leaseId)))
  {
    ReleaseBoth(o, channel, now);
    at := BestOfBoth(ReleaseExpired(o.terminal, channel, now), ReleaseExpired(o.clearance, channel, now), channel, now);
  }

  lemma PullRefines(o: Outbox, channel: Channel, leaseId: Id, now: Time)
    requires DistinctIds(All(o))
    ensures var (o', result) := PullNext(o, channel, leaseId, now);
      DistinctIds(All(o')) && Pulls(View(o), View(o'), channel, leaseId, now, result)
  {
    var at := PullPicks(o, channel, leaseId, now);
    ReleaseKeepsIds(All(o), channel, now);
    var released := ReleaseExpired(All(o), channel, now);
    QueueHas(released);
    if at.Some? {
      UpdateRow(released, at.value, Lease(released[at.value], leaseId, now));
      BestIsEarliest(released, at.value, channel, now);
    } else {
      forall id <- QueueOf(released) ensures !Due(QueueOf(released)[id], channel, now) {
        var i :| 0 <= i < |released| && released[i].id == id;
      }
    }
  }

  lemma BestIsEarliest(rows: seq<Row>, i: nat, channel: Channel, now: Time)
    requires DistinctIds(rows) && Best(rows, i, channel, now)
    ensures var q := QueueOf(rows);
      && rows[i].id in q && q[rows[i].id] == rows[i]
      && forall id <- q | id != rows[i].id && Due(q[id], channel, now) :: Earlier(rows[i], q[id])
  {
    QueueHas(rows);
    var q := QueueOf(rows);
    forall id <- q | id != rows[i].id && Due(q[id], channel, now) ensures Earlier(rows[i], q[id]) {
      var j :| 0 <= j < |rows| && rows[j].id == id;
    }
  }

  // ---- Acknowledge refines the one queue ----

  lemma {:induction false} DeliverFinds(rows: seq<Row>, channel: Channel, id: Id, leaseId: Id) returns (at: Option<nat>)
    ensures var (rows', found) := Deliver(rows, channel, id, leaseId);
      && (found <==> at.Some?)
      && (at.None? ==> rows' == rows && forall i | 0 <= i < |rows| :: !HoldsLease(rows[i], channel, id, leaseId))
      && (at.Some? ==> at.value < |rows| && HoldsLease(rows[at.value], channel, id, leaseId)
                       && rows' == rows[at.value := rows[at.value].(status := Delivered)])
    decreases |rows|
  {
    if rows == [] {
      at := None;
    } else {
      var n := |rows| - 1;
      if HoldsLease(rows[n], channel, id, leaseId) {
        at := Some(n);
      } else {
        at := DeliverFinds(rows[..n], channel, id, leaseId);
        assert rows == rows[..n] + [rows[n]];
      }
    }
  }

  lemma AcknowledgeFinds(o: Outbox, channel: Channel, id: Id, leaseId: Id) returns (at: Option<nat>)
    ensures var (o', found) := Acknowledge(o, channel, id, leaseId);
      var rows := All(o);
      && (found <==> at.Some?)
      && (at.None? ==> All(o') == rows && forall i | 0 <= i < |rows| :: !HoldsLease(rows[i], channel, id, leaseId))
      && (at.Some? ==> at.value < |rows| && HoldsLease(rows[at.value], channel, id, leaseId)
                       && All(o') == rows[at.value := rows[at.value].(status := Delivered)])
  {
    var t := DeliverFinds(o.terminal, channel, id, leaseId);
    if t.Some? {
      at := t;
    } else {
      var c := DeliverFinds(o.clearance, channel, id, leaseId);
      at := if c.Some? then Some(|o.terminal| + c.value) else None;
    }
  }

  lemma AcknowledgeRefines(o: Outbox, channel: Channel, id: Id, leaseId: Id)
    requires DistinctIds(All(o))
    ensures var (o', delivered) := Acknowledge(o, channel, id, leaseId);
      && DistinctIds(All(o')) && (delivered <==> Holds(View(o), channel, id, leaseId))
      && View(o') == if delivered then Acked(View(o), id) else View(o)
  {
    var at := AcknowledgeFinds(o, channel, id, leaseId);
    QueueHas(All(o));
    if at.Some? {
      UpdateRow(All(o), at.value, All(o)[at.value].(status := Delivered));
    } else if id in View(o) {
      var i :| 0 <= i < |All(o)| && All(o)[i].id == id;
      assert !HoldsLease(All(o)[i], channel, id, leaseId);
    }
  }

  // ---- Enqueueing adds to the one queue ----

  function After(k: nat, j: nat): nat {
    if j < k then j else j + 1
  }

  function Origin(k: nat, i: nat): int {
    if i < k then i else i - 1
  }

  predicate InsertsAt(rows: seq<Row>, rows': seq<Row>, k: nat, row: Row) {
    && |rows'| == |rows| + 1 && k <= |rows| && rows'[k] == row
    && (forall j | 0 <= j < |rows| :: rows'[After(k, j)] == rows[j])
    && (forall i | 0 <= i < |rows'| && i != k :: rows'[i] == rows[Origin(k, i)])
  }

  lemma InsertKeepsDistinct(rows: seq<Row>, rows': seq<Row>, k: nat, row: Row)
    requires InsertsAt(rows, rows', k, row) && DistinctIds(rows) && forall r <- rows :: r.id != row.id
    ensures DistinctIds(rows')
  {
    forall i, j | 0 <= i < j < |rows'| ensures rows'[i].id != rows'[j].id {
      assert i == k || rows[Origin(k, i)] in rows;
      assert j == k || rows[Origin(k, j)] in rows;
    }
  }

  lemma InsertHoldsRows(rows: seq<Row>, rows': seq<Row>, k: nat, row: Row)
    requires InsertsAt(rows, rows', k, row) && DistinctIds(rows) && forall r <- rows :: r.id != row.id
    ensures var q := QueueOf(rows)[row.id := row]; forall i | 0 <= i < |rows'| :: rows'[i].id in q && q[rows'[i].id] == rows'[i]
  {
    QueueHas(rows);
    var q := QueueOf(rows)[row.id := row];
    forall i | 0 <= i < |rows'| ensures rows'[i].id in q && q[rows'[i].id] == rows'[i] {
      assert i == k || rows[Origin(k, i)] in rows;
    }
  }

  lemma InsertHoldsIds(rows: seq<Row>, rows': seq<Row>, k: nat, row: Row)
    requires InsertsAt(rows, rows', k, row) && DistinctIds(rows)
    ensures var q := QueueOf(rows)[row.id := row]; forall id <- q :: exists i | 0 <= i < |rows'| :: rows'[i].id == id
  {
    QueueHas(rows);
    var q := QueueOf(rows)[row.id := row];
    forall id <- q ensures exists i | 0 <= i < |rows'| :: rows'[i].id == id {
      if id == row.id {
        assert rows'[k].id == id;
      } else {
        var j :| 0 <= j < |rows| && rows[j].id == id;
        assert rows'[After(k, j)].id == id;
      }
    }
  }

  /** A new row, in whichever table, joins the queue under its id. */
  lemma InsertRefines(rows: seq<Row>, rows': seq<Row>, k: nat, row: Row)
    requires InsertsAt(rows, rows', k, row) && DistinctIds(rows) && forall r <- rows :: r.id != row.id
    ensures DistinctIds(rows') && QueueOf(rows') == QueueOf(rows)[row.id := row]
  {
    InsertKeepsDistinct(rows, rows', k, row);
    InsertHoldsRows(rows, rows', k, row);
    InsertHoldsIds(rows, rows', k, row);
    RepresentsIsView(rows', QueueOf(rows)[row.id := row]);
  }

  lemma EnqueueInserts(front: seq<Row>, row: Row, back: seq<Row>)
    ensures InsertsAt(front + back, front + [row] + back, |front|, row)
  {
    var (rows, rows') := (front + back, front + [row] + back);
    forall j | 0 <= j < |rows| ensures rows'[After(|front|, j)] == rows[j] {
      if j >= |front| { assert rows[j] == back[j - |front|]; }
    }
    forall i | 0 <= i < |rows'| && i != |front| ensures rows'[i] == rows[Origin(|front|, i)] {
      if i > |front| { assert rows'[i] == back[i - |front| - 1]; }
    }
  }
}
