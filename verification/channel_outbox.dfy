/**
 The Hub's queue of channel notifications. Two tables hold it, one row per ended Job and
 one per held node call; each statement, or transaction where there is one, is atomic.
 UUIDs are numbers, compared as their texts are.
 */
module ChannelOutbox {
  import opened Wrappers
  import Jobs
  import NotificationText
  import Utf8

  type Id = Jobs.Id
  type Time = Jobs.Time
  type Channel = string
  type Text = Utf8.Text

  const DELIVERY_LEASE_MS: int := 60_000

  datatype Status = Waiting | Leased(leaseId: Id, until: Time) | Delivered

  /** `key` is the Job of a terminal row and the call of a clearance row. */
  datatype Row = Row(
    id: Id, key: Id, channel: Channel, senderId: string, text: Text,
    status: Status, attempts: nat, availableAt: Time, createdAt: Time)

  datatype Binding = Binding(channel: Channel, senderId: string)

  datatype Outbox = Outbox(bindings: map<Id, Binding>, terminal: seq<Row>, clearance: seq<Row>)

  datatype Notification = Notification(id: Id, channel: Channel, senderId: string, text: Text, leaseId: Id)

  datatype Failure = BoundElsewhere | BadText

  // ---- Binding and enqueueing ----

  function Bind(o: Outbox, jobId: Id, to: Binding): Result<Outbox, Failure> {
    if jobId in o.bindings then if o.bindings[jobId] == to then Ok(o) else Err(BoundElsewhere)
    else Ok(o.(bindings := o.bindings[jobId := to]))
  }

  predicate HasKey(rows: seq<Row>, key: Id) {
    exists i | 0 <= i < |rows| :: rows[i].key == key
  }

  /** INSERT … ON CONFLICT DO NOTHING */
  function Enqueue(rows: seq<Row>, key: Id, id: Id, to: Binding, text: Text, now: Time): (seq<Row>, bool) {
    if HasKey(rows, key) then (rows, false)
    else (rows + [Row(id, key, to.channel, to.senderId, text, Waiting, 0, now, now)], true)
  }

  function EnqueueTerminal(o: Outbox, jobId: Id, text: Text, id: Id, now: Time): Result<(Outbox, bool), Failure> {
    if !NotificationText.Accepted(text) then Err(BadText)
    else if jobId !in o.bindings then Ok((o, false))
    else
      var (rows, created) := Enqueue(o.terminal, jobId, id, o.bindings[jobId], text, now);
      Ok((o.(terminal := rows), created))
  }

  function EnqueueClearance(o: Outbox, jobId: Id, callId: Id, text: Text, id: Id, now: Time): Result<(Outbox, bool), Failure> {
    if !NotificationText.Accepted(text) then Err(BadText)
    else if jobId !in o.bindings then Ok((o, false))
    else
      var (rows, created) := Enqueue(o.clearance, callId, id, o.bindings[jobId], text, now);
      Ok((o.(clearance := rows), created))
  }

  // ---- Pulling ----

  function Released(row: Row, channel: Channel, now: Time): Row {
    if row.channel == channel && row.status.Leased? && row.status.until <= now
    then row.(status := Waiting, availableAt := now) else row
  }

  function ReleaseExpired(rows: seq<Row>, channel: Channel, now: Time): seq<Row> {
    seq(|rows|, i requires 0 <= i < |rows| => Released(rows[i], channel, now))
  }

  predicate Due(row: Row, channel: Channel, now: Time) {
    row.channel == channel && row.status.Waiting? && row.availableAt <= now
  }

  predicate Earlier(a: Row, b: Row) {
    a.createdAt < b.createdAt || (a.createdAt == b.createdAt && a.id < b.id)
  }

  /** The earliest ready row of one table. */
  function First(rows: seq<Row>, channel: Channel, now: Time): (at: Option<nat>)
    ensures at.None? ==> forall i | 0 <= i < |rows| :: !Due(rows[i], channel, now)
    ensures at.Some? ==>
      && at.value < |rows| && Due(rows[at.value], channel, now)
      && forall i | 0 <= i < |rows| && Due(rows[i], channel, now) :: !Earlier(rows[i], rows[at.value])
  {
    if rows == [] then None
    else
      var n := |rows| - 1;
      var before := First(rows[..n], channel, now);
      if Due(rows[n], channel, now) && (before.None? || Earlier(rows[n], rows[before.value])) then Some(n) else before
  }

  function Lease(row: Row, leaseId: Id, now: Time): Row {
    row.(status := Leased(leaseId, now + DELIVERY_LEASE_MS), attempts := row.attempts + 1)
  }

  function NotificationOf(row: Row, leaseId: Id): Notification {
    Notification(row.id, row.channel, row.senderId, row.text, leaseId)
  }

  function PullNext(o: Outbox, channel: Channel, leaseId: Id, now: Time): (Outbox, Option<Notification>) {
    var terminal := ReleaseExpired(o.terminal, channel, now);
    var clearance := ReleaseExpired(o.clearance, channel, now);
    var (t, c) := (First(terminal, channel, now), First(clearance, channel, now));
    if t.Some? && (c.None? || !Earlier(clearance[c.value], terminal[t.value])) then
      var row := terminal[t.value];
      (Outbox(o.bindings, terminal[t.value := Lease(row, leaseId, now)], clearance), Some(NotificationOf(row, leaseId)))
    else if c.Some? then
      var row := clearance[c.value];
      (Outbox(o.bindings, terminal, clearance[c.value := Lease(row, leaseId, now)]), Some(NotificationOf(row, leaseId)))
    else (Outbox(o.bindings, terminal, clearance), None)
  }

  // ---- Acknowledging ----

  predicate HoldsLease(row: Row, channel: Channel, id: Id, leaseId: Id) {
    row.id == id && row.channel == channel && row.status.Leased? && row.status.leaseId == leaseId
  }

  /** UPDATE … SET status = 'DELIVERED' of the one row that the conditions select. */
  function Deliver(rows: seq<Row>, channel: Channel, id: Id, leaseId: Id): (seq<Row>, bool) {
    if rows == [] then (rows, false)
    else
      var n := |rows| - 1;
      if HoldsLease(rows[n], channel, id, leaseId) then (rows[n := rows[n].(status := Delivered)], true)
      else
        var (rest, found) := Deliver(rows[..n], channel, id, leaseId);
        (rest + [rows[n]], found)
  }

  function Acknowledge(o: Outbox, channel: Channel, id: Id, leaseId: Id): (Outbox, bool) {
    var (terminal, found) := Deliver(o.terminal, channel, id, leaseId);
    if found then (o.(terminal := terminal), true)
    else
      var (clearance, found') := Deliver(o.clearance, channel, id, leaseId);
      (o.(terminal := terminal, clearance := clearance), found')
  }

  // ---- The outbox ----

  class DurableOutbox {
    var bindings: map<Id, Binding>
    var terminal: seq<Row>
    var clearance: seq<Row>

    function View(): Outbox
      reads this
    {
      Outbox(bindings, terminal, clearance)
    }

    constructor ()
      ensures View() == Outbox(map[], [], [])
    {
      bindings, terminal, clearance := map[], [], [];
    }

    method BindJob(jobId: Id, to: Binding) returns (result: Result<(), Failure>)
      modifies this`bindings
      ensures match Bind(old(View()), jobId, to)
        case Ok(o) => result == Ok(()) && View() == o
        case Err(error) => result == Err(error) && View() == old(View())
    {
      if jobId in bindings {
        return if bindings[jobId] == to then Ok(()) else Err(BoundElsewhere);
      }
      bindings := bindings[jobId := to];
      result := Ok(());
    }

    method AddTerminal(jobId: Id, text: Text, id: Id, now: Time) returns (result: Result<bool, Failure>)
      modifies this`terminal
      ensures match EnqueueTerminal(old(View()), jobId, text, id, now)
        case Ok((o, created)) => result == Ok(created) && View() == o
        case Err(error) => result == Err(error) && View() == old(View())
    {
      if !NotificationText.Accepted(text) { return Err(BadText); }
      if jobId !in bindings || HasKey(terminal, jobId) { return Ok(false); }
      var to := bindings[jobId];
      terminal := terminal + [Row(id, jobId, to.channel, to.senderId, text, Waiting, 0, now, now)];
      result := Ok(true);
    }

    method AddClearance(jobId: Id, callId: Id, text: Text, id: Id, now: Time) returns (result: Result<bool, Failure>)
      modifies this`clearance
      ensures match EnqueueClearance(old(View()), jobId, callId, text, id, now)
        case Ok((o, created)) => result == Ok(created) && View() == o
        case Err(error) => result == Err(error) && View() == old(View())
    {
      if !NotificationText.Accepted(text) { return Err(BadText); }
      if jobId !in bindings || HasKey(clearance, callId) { return Ok(false); }
      var to := bindings[jobId];
      clearance := clearance + [Row(id, callId, to.channel, to.senderId, text, Waiting, 0, now, now)];
      result := Ok(true);
    }

    method PullNotification(channel: Channel, leaseId: Id, now: Time) returns (result: Option<Notification>)
      modifies this`terminal, this`clearance
      ensures (View(), result) == PullNext(old(View()), channel, leaseId, now)
    {
      terminal := ReleaseExpired(terminal, channel, now);
      clearance := ReleaseExpired(clearance, channel, now);
      var t := First(terminal, channel, now);
      var c := First(clearance, channel, now);
      if t.None? && c.None? { return None; }
      if t.Some? && (c.None? || !Earlier(clearance[c.value], terminal[t.value])) {
        result := Some(NotificationOf(terminal[t.value], leaseId));
        terminal := terminal[t.value := Lease(terminal[t.value], leaseId, now)];
      } else {
        result := Some(NotificationOf(clearance[c.value], leaseId));
        clearance := clearance[c.value := Lease(clearance[c.value], leaseId, now)];
      }
    }

    method AcknowledgeNotification(channel: Channel, id: Id, leaseId: Id) returns (delivered: bool)
      modifies this`terminal, this`clearance
      ensures (View(), delivered) == Acknowledge(old(View()), channel, id, leaseId)
    {
      var (rows, found) := Deliver(terminal, channel, id, leaseId);
      terminal := rows;
      if found { return true; }
      var (rows', found') := Deliver(clearance, channel, id, leaseId);
      clearance := rows';
      delivered := found';
    }
  }
}
