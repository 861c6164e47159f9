/** Runs of the outbox, under a clock that does not go back and with UUIDs that are never drawn twice. */
module OutboxRuns {
  import opened Wrappers
  import opened ChannelOutbox
  import opened OutboxQueue
  import NotificationText

  /** A delivery lease of a notification, over the interval [from, until). */
  datatype Grant = Grant(id: Id, leaseId: Id, from: Time, until: Time)

  datatype World = World(o: Outbox, clock: Time, used: set<Id>, grants: seq<Grant>, acks: seq<Id>)

  datatype Step =
    | Binds(jobId: Id, to: Binding)
    | EndsJob(jobId: Id, text: Text, id: Id, now: Time)
    | HoldsCall(jobId: Id, callId: Id, text: Text, id: Id, now: Time)
    | PullsFrom(channel: Channel, leaseId: Id, now: Time)
    | Acknowledges(channel: Channel, id: Id, leaseId: Id)

  predicate Possible(w: World, s: Step) {
    match s
    case EndsJob(_, _, id, now) => w.clock <= now && id !in w.used
    case HoldsCall(_, _, _, id, now) => w.clock <= now && id !in w.used
    case PullsFrom(_, leaseId, now) => w.clock <= now && leaseId !in w.used
    case _ => true
  }

  function Next(w: World, s: Step): World {
    if !Possible(w, s) then w
    else match s
      case Binds(jobId, to) =>
        var r := Bind(w.o, jobId, to);
        if r.Ok? then w.(o := r.value) else w
      case EndsJob(jobId, text, id, now) =>
        var r := EnqueueTerminal(w.o, jobId, text, id, now);
        w.(o := if r.Ok? then r.value.0 else w.o, clock := now, used := w.used + {id})
      case HoldsCall(jobId, callId, text, id, now) =>
        var r := EnqueueClearance(w.o, jobId, callId, text, id, now);
        w.(o := if r.Ok? then r.value.0 else w.o, clock := now, used := w.used + {id})
      case PullsFrom(channel, leaseId, now) =>
        var (o, result) := PullNext(w.o, channel, leaseId, now);
        var grants := if result.Some? then [Grant(result.value.id, leaseId, now, now + DELIVERY_LEASE_MS)] else [];
        World(o, now, w.used + {leaseId}, w.grants + grants, w.acks)
      case Acknowledges(channel, id, leaseId) =>
        var (o, delivered) := Acknowledge(w.o, channel, id, leaseId);
        w.(o := o, acks := w.acks + if delivered then [id] else [])
  }

  function RunAll(w: World, steps: seq<Step>): World
    decreases |steps|
  {
    if steps == [] then w else RunAll(Next(w, steps[0]), steps[1..])
  }

  function Fresh(clock: Time): World {
    World(Outbox(map[], [], []), clock, {}, [], [])
  }

  // ---- The invariant, on the one queue ----

  predicate DistinctKeys(rows: seq<Row>) {
    forall i, j | 0 <= i < j < |rows| :: rows[i].key != rows[j].key
  }

  ghost predicate RowOk(used: set<Id>, clock: Time, row: Row) {
    row.id in used && row.createdAt <= clock && row.availableAt <= clock
  }

  /** The row's lease is its last grant. */
  ghost predicate LastGrant(grants: seq<Grant>, k: nat, row: Row) {
    && k < |grants| && row.status.Leased?
    && grants[k].id == row.id && grants[k].leaseId == row.status.leaseId && grants[k].until == row.status.until
    && forall m | k < m < |grants| :: grants[m].id != row.id
  }

  ghost predicate GrantOk(q: Queue, used: set<Id>, clock: Time, g: Grant) {
    && g.id in q && g.leaseId in used && g.from <= clock && g.until == g.from + DELIVERY_LEASE_MS
    && (q[g.id].status == Leased(g.leaseId, g.until) || q[g.id].status.Delivered? || g.until <= clock)
  }

  ghost predicate GrantsDisjoint(grants: seq<Grant>) {
    forall i, j | 0 <= i < j < |grants| && grants[i].id == grants[j].id :: grants[i].until <= grants[j].from
  }

  predicate Distinct(ids: seq<Id>) {
    forall i, j | 0 <= i < j < |ids| :: ids[i] != ids[j]
  }

  ghost predicate QueueOk(q: Queue, used: set<Id>, clock: Time, grants: seq<Grant>, acks: seq<Id>) {
    && Keyed(q)
    && (forall id <- q :: RowOk(used, clock, q[id]))
    && (forall id <- q | q[id].status.Leased? :: exists k :: LastGrant(grants, k, q[id]))
    && (forall i | 0 <= i < |grants| :: GrantOk(q, used, clock, grants[i]))
    && GrantsDisjoint(grants)
    && Distinct(acks) && (forall id: Id :: id in acks <==> id in q && q[id].status.Delivered?)
  }

  ghost predicate Inv(w: World) {
    && DistinctIds(All(w.o)) && DistinctKeys(w.o.terminal) && DistinctKeys(w.o.clearance)
    && QueueOk(View(w.o), w.used, w.clock, w.grants, w.acks)
  }

  /** A notification keeps its content and its place in the order; delivered, it stays delivered. */
  predicate SameNotification(row: Row, row': Row) {
    && row' == row.(status := row'.status, attempts := row'.attempts, availableAt := row'.availableAt)
    && (row.status.Delivered? ==> row'.status.Delivered?)
  }

  ghost predicate QueueExtends(q: Queue, q': Queue) {
    forall id <- q :: id in q' && SameNotification(q[id], q'[id])
  }

  // ---- Each kind of step ----

  lemma AddKeeps(q: Queue, used: set<Id>, clock: Time, grants: seq<Grant>, acks: seq<Id>, row: Row, now: Time)
    requires QueueOk(q, used, clock, grants, acks) && clock <= now && row.id !in used
    requires row.status.Waiting? && row.createdAt == now && row.availableAt == now
    ensures QueueOk(q[row.id := row], used + {row.id}, now, grants, acks) && QueueExtends(q, q[row.id := row])
  {
    var q' := q[row.id := row];
    forall id <- q' | q'[id].status.Leased? ensures exists k :: LastGrant(grants, k, q'[id]) {
      assert id in q && q'[id] == q[id];
    }
  }

  lemma ExpireKeeps(q: Queue, used: set<Id>, clock: Time, grants: seq<Grant>, acks: seq<Id>, channel: Channel, now: Time)
    requires QueueOk(q, used, clock, grants, acks) && clock <= now
    ensures QueueOk(Expire(q, channel, now), used, now, grants, acks) && QueueExtends(q, Expire(q, channel, now))
  {
    var e := Expire(q, channel, now);
    forall id <- e | e[id].status.Leased? ensures exists k :: LastGrant(grants, k, e[id]) {
      assert e[id] == q[id];
    }
    forall i | 0 <= i < |grants| ensures GrantOk(e, used, now, grants[i]) {
      assert GrantOk(q, used, clock, grants[i]);
    }
  }

  lemma LeaseKeepsGrants(q: Queue, used: set<Id>, clock: Time, grants: seq<Grant>, acks: seq<Id>, id: Id, leaseId: Id)
    requires QueueOk(q, used, clock, grants, acks) && id in q && q[id].status.Waiting? && leaseId !in used
    ensures var (q', g) := (q[id := Lease(q[id], leaseId, clock)], Grant(id, leaseId, clock, clock + DELIVERY_LEASE_MS));
      && (forall i | 0 <= i < |grants + [g]| :: GrantOk(q', used + {leaseId}, clock, (grants + [g])[i]))
      && GrantsDisjoint(grants + [g])
  {
    forall i | 0 <= i < |grants| ensures GrantOk(q, used, clock, grants[i]) {
    }
  }

  lemma LeaseKeepsLeased(q: Queue, used: set<Id>, clock: Time, grants: seq<Grant>, acks: seq<Id>, id: Id, leaseId: Id)
    requires QueueOk(q, used, clock, grants, acks) && id in q
    ensures var (q', g) := (q[id := Lease(q[id], leaseId, clock)], Grant(id, leaseId, clock, clock + DELIVERY_LEASE_MS));
      forall other <- q' | q'[other].status.Leased? :: exists k :: LastGrant(grants + [g], k, q'[other])
  {
    var (q', g) := (q[id := Lease(q[id], leaseId, clock)], Grant(id, leaseId, clock, clock + DELIVERY_LEASE_MS));
    forall other <- q' | q'[other].status.Leased? ensures exists k :: LastGrant(grants + [g], k, q'[other]) {
      if other == id {
        assert LastGrant(grants + [g], |grants|, q'[id]);
      } else {
        var k :| LastGrant(grants, k, q[other]);
        assert LastGrant(grants + [g], k, q'[other]);
      }
    }
  }

  lemma LeaseKeeps(q: Queue, used: set<Id>, clock: Time, grants: seq<Grant>, acks: seq<Id>, id: Id, leaseId: Id)
    requires QueueOk(q, used, clock, grants, acks) && id in q && q[id].status.Waiting? && leaseId !in used
    ensures var (q', g) := (q[id := Lease(q[id], leaseId, clock)], Grant(id, leaseId, clock, clock + DELIVERY_LEASE_MS));
      QueueOk(q', used + {leaseId}, clock, grants + [g], acks) && QueueExtends(q, q')
  {
    LeaseKeepsGrants(q, used, clock, grants, acks, id, leaseId);
    LeaseKeepsLeased(q, used, clock, grants, acks, id, leaseId);
  }

  lemma MoreUsedKeeps(q: Queue, used: set<Id>, used': set<Id>, clock: Time, grants: seq<Grant>, acks: seq<Id>)
    requires QueueOk(q, used, clock, grants, acks) && used <= used'
    ensures QueueOk(q, used', clock, grants, acks)
  {
    forall i | 0 <= i < |grants| ensures GrantOk(q, used', clock, grants[i]) {
      assert GrantOk(q, used, clock, grants[i]);
    }
  }

  lemma LaterKeeps(q: Queue, used: set<Id>, clock: Time, now: Time, grants: seq<Grant>, acks: seq<Id>)
    requires QueueOk(q, used, clock, grants, acks) && clock <= now
    ensures QueueOk(q, used, now, grants, acks)
  {
    forall i | 0 <= i < |grants| ensures GrantOk(q, used, now, grants[i]) {
      assert GrantOk(q, used, clock, grants[i]);
    }
  }

  lemma AckKeeps(q: Queue, used: set<Id>, clock: Time, grants: seq<Grant>, acks: seq<Id>, channel: Channel, id: Id, leaseId: Id)
    requires QueueOk(q, used, clock, grants, acks) && Holds(q, channel, id, leaseId)
    ensures QueueOk(Acked(q, id), used, clock, grants, acks + [id]) && QueueExtends(q, Acked(q, id))
  {
    var q' := Acked(q, id);
    assert id !in acks;
    forall other <- q' | q'[other].status.Leased? ensures exists k :: LastGrant(grants, k, q'[other]) {
      assert q'[other] == q[other];
    }
    forall i | 0 <= i < |grants| ensures GrantOk(q', used, clock, grants[i]) {
      assert GrantOk(q, used, clock, grants[i]);
    }
  }

  // ---- Keys ----

  predicate SameKeys(rows: seq<Row>, rows': seq<Row>) {
    |rows'| == |rows| && forall i | 0 <= i < |rows| :: rows'[i].key == rows[i].key
  }

  lemma {:induction false} DeliverKeepsKeys(rows: seq<Row>, channel: Channel, id: Id, leaseId: Id)
    ensures SameKeys(rows, Deliver(rows, channel, id, leaseId).0)
    decreases |rows|
  {
    if rows != [] {
      DeliverKeepsKeys(rows[..|rows| - 1], channel, id, leaseId);
    }
  }

  lemma PullKeepsKeys(o: Outbox, channel: Channel, leaseId: Id, now: Time)
    ensures var o' := PullNext(o, channel, leaseId, now).0;
      SameKeys(o.terminal, o'.terminal) && SameKeys(o.clearance, o'.clearance)
  {
  }

  lemma SameKeysStayDistinct(rows: seq<Row>, rows': seq<Row>)
    requires DistinctKeys(rows) && SameKeys(rows, rows')
    ensures DistinctKeys(rows')
  {
  }

  lemma EnqueueKeepsKeys(rows: seq<Row>, key: Id, id: Id, to: Binding, text: Text, now: Time)
    requires DistinctKeys(rows)
    ensures DistinctKeys(Enqueue(rows, key, id, to, text, now).0)
  {
  }

  // ---- Every step ----

  lemma UsedRows(w: World, id: Id)
    requires Inv(w) && id !in w.used
    ensures forall r <- All(w.o) :: r.id != id
  {
    QueueHas(All(w.o));
    forall r <- All(w.o) ensures r.id != id {
      var i :| 0 <= i < |All(w.o)| && All(w.o)[i] == r;
      assert RowOk(w.used, w.clock, View(w.o)[r.id]);
    }
  }

  /** A row enqueued at the end of the terminal table or of the clearance table joins the queue. */
  lemma EnqueuedJoins(o: Outbox, o': Outbox, row: Row)
    requires DistinctIds(All(o)) && forall r <- All(o) :: r.id != row.id
    requires o' == o.(terminal := o.terminal + [row]) || o' == o.(clearance := o.clearance + [row])
    ensures DistinctIds(All(o')) && View(o') == View(o)[row.id := row]
  {
    if o'.clearance == o.clearance {
      EnqueueInserts(o.terminal, row, o.clearance);
      InsertRefines(All(o), All(o'), |o.terminal|, row);
    } else {
      EnqueueInserts(All(o), row, []);
      assert All(o') == All(o) + [row] + [] && All(o) == All(o) + [];
      InsertRefines(All(o), All(o'), |All(o)|, row);
    }
  }

  lemma EnqueueKeepsInv(w: World, o': Outbox, row: Row, now: Time)
    requires Inv(w) && w.clock <= now && row.id !in w.used
    requires row.status.Waiting? && row.createdAt == now && row.availableAt == now
    requires o' == w.o.(terminal := w.o.terminal + [row]) || o' == w.o.(clearance := w.o.clearance + [row])
    requires DistinctKeys(o'.terminal) && DistinctKeys(o'.clearance)
    ensures Inv(w.(o := o', clock := now, used := w.used + {row.id})) && QueueExtends(View(w.o), View(o'))
  {
    UsedRows(w, row.id);
    EnqueuedJoins(w.o, o', row);
    AddKeeps(View(w.o), w.used, w.clock, w.grants, w.acks, row, now);
  }

  lemma RefusedKeepsInv(w: World, id: Id, now: Time)
    requires Inv(w) && w.clock <= now
    ensures Inv(w.(clock := now, used := w.used + {id}))
  {
    LaterKeeps(View(w.o), w.used, w.clock, now, w.grants, w.acks);
    MoreUsedKeeps(View(w.o), w.used, w.used + {id}, now, w.grants, w.acks);
  }

  lemma EndsJobKeepsInv(w: World, jobId: Id, text: Text, id: Id, now: Time)
    requires Inv(w)
    ensures Inv(Next(w, EndsJob(jobId, text, id, now))) && QueueExtends(View(w.o), View(Next(w, EndsJob(jobId, text, id, now)).o))
  {
    if Possible(w, EndsJob(jobId, text, id, now)) {
      RefusedKeepsInv(w, id, now);
      if NotificationText.Accepted(text) && jobId in w.o.bindings && !HasKey(w.o.terminal, jobId) {
        var to := w.o.bindings[jobId];
        EnqueueKeepsKeys(w.o.terminal, jobId, id, to, text, now);
        EnqueueKeepsInv(w, Next(w, EndsJob(jobId, text, id, now)).o,
          Row(id, jobId, to.channel, to.senderId, text, Waiting, 0, now, now), now);
      }
    }
  }

  lemma HoldsCallKeepsInv(w: World, jobId: Id, callId: Id, text: Text, id: Id, now: Time)
    requires Inv(w)
    ensures var s := HoldsCall(jobId, callId, text, id, now); Inv(Next(w, s)) && QueueExtends(View(w.o), View(Next(w, s).o))
  {
    var s := HoldsCall(jobId, callId, text, id, now);
    if Possible(w, s) {
      RefusedKeepsInv(w, id, now);
      if NotificationText.Accepted(text) && jobId in w.o.bindings && !HasKey(w.o.clearance, callId) {
        var to := w.o.bindings[jobId];
        EnqueueKeepsKeys(w.o.clearance, callId, id, to, text, now);
        EnqueueKeepsInv(w, Next(w, s).o, Row(id, callId, to.channel, to.senderId, text, Waiting, 0, now, now), now);
      }
    }
  }

  lemma PulledQueueKeeps(w: World, q': Queue, channel: Channel, leaseId: Id, now: Time, result: Option<Notification>)
    requires Inv(w) && w.clock <= now && leaseId !in w.used && Pulls(View(w.o), q', channel, leaseId, now, result)
    ensures var grants := w.grants + if result.Some? then [Grant(result.value.id, leaseId, now, now + DELIVERY_LEASE_MS)] else [];
      QueueOk(q', w.used + {leaseId}, now, grants, w.acks) && QueueExtends(View(w.o), q')
  {
    var e := Expire(View(w.o), channel, now);
    ExpireKeeps(View(w.o), w.used, w.clock, w.grants, w.acks, channel, now);
    if result.Some? {
      LeaseKeeps(e, w.used, now, w.grants, w.acks, result.value.id, leaseId);
    } else {
      MoreUsedKeeps(e, w.used, w.used + {leaseId}, now, w.grants, w.acks);
      assert w.grants + [] == w.grants;
    }
  }

  lemma PullKeepsInv(w: World, channel: Channel, leaseId: Id, now: Time)
    requires Inv(w)
    ensures var s := PullsFrom(channel, leaseId, now); Inv(Next(w, s)) && QueueExtends(View(w.o), View(Next(w, s).o))
  {
    if Possible(w, PullsFrom(channel, leaseId, now)) {
      var (o, result) := PullNext(w.o, channel, leaseId, now);
      PullRefines(w.o, channel, leaseId, now);
      PulledQueueKeeps(w, View(o), channel, leaseId, now, result);
      PullKeepsKeys(w.o, channel, leaseId, now);
      SameKeysStayDistinct(w.o.terminal, o.terminal);
      SameKeysStayDistinct(w.o.clearance, o.clearance);
    }
  }

  lemma AckKeepsInv(w: World, channel: Channel, id: Id, leaseId: Id)
    requires Inv(w)
    ensures var s := Acknowledges(channel, id, leaseId); Inv(Next(w, s)) && QueueExtends(View(w.o), View(Next(w, s).o))
  {
    AcknowledgeRefines(w.o, channel, id, leaseId);
    DeliverKeepsKeys(w.o.terminal, channel, id, leaseId);
    DeliverKeepsKeys(w.o.clearance, channel, id, leaseId);
    if Holds(View(w.o), channel, id, leaseId) {
      AckKeeps(View(w.o), w.used, w.clock, w.grants, w.acks, channel, id, leaseId);
    }
    assert w.acks + [] == w.acks;
  }

  lemma NextKeepsInv(w: World, s: Step)
    requires Inv(w)
    ensures Inv(Next(w, s)) && QueueExtends(View(w.o), View(Next(w, s).o))
  {
    match s
    case Binds(_, _) => assert All(Next(w, s).o) == All(w.o);
    case EndsJob(jobId, text, id, now) => EndsJobKeepsInv(w, jobId, text, id, now);
    case HoldsCall(jobId, callId, text, id, now) => HoldsCallKeepsInv(w, jobId, callId, text, id, now);
    case PullsFrom(channel, leaseId, now) => PullKeepsInv(w, channel, leaseId, now);
    case Acknowledges(channel, id, leaseId) => AckKeepsInv(w, channel, id, leaseId);
  }

  lemma ExtendsTrans(a: Queue, b: Queue, c: Queue)
    requires QueueExtends(a, b) && QueueExtends(b, c)
    ensures QueueExtends(a, c)
  {
  }

  lemma {:induction false} RunKeepsInv(w: World, steps: seq<Step>)
    requires Inv(w)
    ensures Inv(RunAll(w, steps)) && QueueExtends(View(w.o), View(RunAll(w, steps).o))
    decreases |steps|
  {
    if steps != [] {
      NextKeepsInv(w, steps[0]);
      RunKeepsInv(Next(w, steps[0]), steps[1..]);
      ExtendsTrans(View(w.o), View(Next(w, steps[0]).o), View(RunAll(w, steps).o));
    }
  }

  lemma FreshIsOk(clock: Time)
    ensures Inv(Fresh(clock))
  {
  }
}
