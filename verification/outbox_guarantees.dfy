/** What the outbox promises over whole runs, from the empty tables on. */
module OutboxGuarantees {
  import opened Wrappers
  import opened ChannelOutbox
  import opened OutboxQueue
  import opened OutboxRuns

  function Reach(clock: Time, steps: seq<Step>): World {
    RunAll(Fresh(clock), steps)
  }

  lemma ReachIsOk(clock: Time, steps: seq<Step>)
    ensures Inv(Reach(clock, steps))
  {
    FreshIsOk(clock);
    RunKeepsInv(Fresh(clock), steps);
  }

  // ---- Pull ----

  /** Not delivered, and under no lease that still runs. */
  predicate Deliverable(row: Row, channel: Channel, now: Time) {
    row.channel == channel && (row.status.Waiting? || (row.status.Leased? && row.status.until <= now))
  }

  /** Pull hands out the deliverable notification with the least (createdAt, id), and nothing only when there is none. */
  lemma PullReturnsTheLeast(clock: Time, steps: seq<Step>, channel: Channel, leaseId: Id, now: Time)
    requires Reach(clock, steps).clock <= now
    ensures var q := View(Reach(clock, steps).o);
      match PullNext(Reach(clock, steps).o, channel, leaseId, now).1
      case None => forall id <- q :: !Deliverable(q[id], channel, now)
      case Some(n) =>
        && n.id in q && Deliverable(q[n.id], channel, now) && n == NotificationOf(q[n.id], leaseId)
        && forall id <- q | id != n.id && Deliverable(q[id], channel, now) :: Earlier(q[n.id], q[id])
  {
    ReachIsOk(clock, steps);
    var w := Reach(clock, steps);
    var q := View(w.o);
    PullRefines(w.o, channel, leaseId, now);
    forall id <- q ensures Due(Released(q[id], channel, now), channel, now) <==> Deliverable(q[id], channel, now) {
      assert RowOk(w.used, w.clock, q[id]);
    }
    forall id <- q ensures Expire(q, channel, now)[id] == Released(q[id], channel, now) {
    }
  }

  /** Every pull and acknowledgement acts on the two tables as it would on one queue. */
  lemma TablesActAsOneQueue(clock: Time, steps: seq<Step>, channel: Channel, id: Id, leaseId: Id, now: Time)
    ensures var o := Reach(clock, steps).o;
      && Pulls(View(o), View(PullNext(o, channel, leaseId, now).0), channel, leaseId, now, PullNext(o, channel, leaseId, now).1)
      && (Acknowledge(o, channel, id, leaseId).1 <==> Holds(View(o), channel, id, leaseId))
      && View(Acknowledge(o, channel, id, leaseId).0)
         == if Holds(View(o), channel, id, leaseId) then Acked(View(o), id) else View(o)
  {
    ReachIsOk(clock, steps);
    PullRefines(Reach(clock, steps).o, channel, leaseId, now);
    AcknowledgeRefines(Reach(clock, steps).o, channel, id, leaseId);
  }

  // ---- Leases and deliveries ----

  /** All leases of one notification are disjoint in time, so it never has two unexpired ones. */
  lemma OneLeaseAtATime(clock: Time, steps: seq<Step>, i: nat, j: nat, now: Time)
    requires var grants := Reach(clock, steps).grants;
      i < |grants| && j < |grants| && i != j && grants[i].id == grants[j].id
    ensures var grants := Reach(clock, steps).grants;
      !(grants[i].from <= now < grants[i].until && grants[j].from <= now < grants[j].until)
  {
    ReachIsOk(clock, steps);
    var grants := Reach(clock, steps).grants;
    assert GrantOk(View(Reach(clock, steps).o), Reach(clock, steps).used, Reach(clock, steps).clock, grants[i]);
    if i < j {
      assert grants[i].until <= grants[j].from;
    } else {
      assert grants[j].until <= grants[i].from;
    }
  }

  /** No notification is acknowledged twice; once acknowledged it stays delivered and is never pulled again. */
  lemma DeliveredOnce(clock: Time, steps: seq<Step>, more: seq<Step>, id: Id, channel: Channel, leaseId: Id, now: Time)
    requires id in Reach(clock, steps).acks
    ensures var w := RunAll(Reach(clock, steps), more);
      && Distinct(w.acks) && id in w.acks && !Acknowledge(w.o, channel, id, leaseId).1
      && (PullNext(w.o, channel, leaseId, now).1.Some? ==> PullNext(w.o, channel, leaseId, now).1.value.id != id)
  {
    var w0 := Reach(clock, steps);
    ReachIsOk(clock, steps);
    RunKeepsInv(w0, more);
    var w := RunAll(w0, more);
    assert View(w0.o)[id].status.Delivered?;
    assert View(w.o)[id].status.Delivered?;
    AcknowledgeRefines(w.o, channel, id, leaseId);
    PullRefines(w.o, channel, leaseId, now);
    assert id in Expire(View(w.o), channel, now) && !Due(Expire(View(w.o), channel, now)[id], channel, now);
  }

  /** Only the last lease of a notification acknowledges it. */
  lemma OnlyTheLastLeaseAcknowledges(clock: Time, steps: seq<Step>, channel: Channel, id: Id, leaseId: Id)
    requires Acknowledge(Reach(clock, steps).o, channel, id, leaseId).1
    ensures var w := Reach(clock, steps);
      && id in View(w.o) && View(w.o)[id].status.Leased? && View(w.o)[id].status.leaseId == leaseId
      && exists k: nat :: LastGrant(w.grants, k, View(w.o)[id])
  {
    ReachIsOk(clock, steps);
    var w := Reach(clock, steps);
    AcknowledgeRefines(w.o, channel, id, leaseId);
  }

  /** An ended Job has at most one notification, and so has a held call. */
  lemma OneNotificationEach(clock: Time, steps: seq<Step>, i: nat, j: nat)
    ensures var o := Reach(clock, steps).o;
      && (i < j < |o.terminal| ==> o.terminal[i].key != o.terminal[j].key)
      && (i < j < |o.clearance| ==> o.clearance[i].key != o.clearance[j].key)
  {
    ReachIsOk(clock, steps);
  }

  // ---- Draining a channel ----

  function Undelivered(q: Queue, channel: Channel): set<Id> {
    set id <- q | q[id].channel == channel && !q[id].status.Delivered?
  }

  /** Pulls and acknowledges in turn, with these lease ids at these times, until a pull returns nothing. */
  function Drain(o: Outbox, channel: Channel, leases: seq<Id>, times: seq<Time>): (Outbox, seq<Notification>)
    requires |leases| == |times|
    decreases |leases|
  {
    if leases == [] then (o, [])
    else
      var (pulled, n) := PullNext(o, channel, leases[0], times[0]);
      if n.None? then (pulled, [])
      else
        var (rest, notifications) := Drain(Acknowledge(pulled, channel, n.value.id, leases[0]).0, channel, leases[1..], times[1..]);
        (rest, [n.value] + notifications)
  }

  /** At this time the channel has no running lease, and no notification from the future. */
  predicate Idle(q: Queue, channel: Channel, now: Time) {
    forall id <- q | q[id].channel == channel ::
      && (q[id].status.Leased? ==> q[id].status.until <= now)
      && (q[id].status.Waiting? ==> q[id].availableAt <= now)
  }

  predicate Ascending(times: seq<Time>) {
    forall i, j | 0 <= i < j < |times| :: times[i] <= times[j]
  }

  predicate InOrder(q: Queue, notifications: seq<Notification>) {
    forall i, j | 0 <= i < j < |notifications| ::
      notifications[i].id in q && notifications[j].id in q && Earlier(q[notifications[i].id], q[notifications[j].id])
  }

  lemma PullFromIdle(o: Outbox, channel: Channel, leaseId: Id, now: Time)
    requires DistinctIds(All(o)) && Idle(View(o), channel, now)
    ensures PullNext(o, channel, leaseId, now).1.None? <==> Undelivered(View(o), channel) == {}
    ensures PullNext(o, channel, leaseId, now).1.Some? ==>
      var n := PullNext(o, channel, leaseId, now).1.value;
      && n.id in Undelivered(View(o), channel) && n == NotificationOf(View(o)[n.id], leaseId)
      && forall id <- Undelivered(View(o), channel) | id != n.id :: Earlier(View(o)[n.id], View(o)[id])
  {
    var (q, e) := (View(o), Expire(View(o), channel, now));
    var result := PullNext(o, channel, leaseId, now).1;
    PullRefines(o, channel, leaseId, now);
    forall id <- e ensures Due(e[id], channel, now) <==> id in Undelivered(q, channel) {
    }
    if result.None? {
      forall id ensures id !in Undelivered(q, channel) {
        if id in q { assert !Due(e[id], channel, now); }
      }
    }
  }

  /** The queue after one round of pull and acknowledge. */
  function Round(q: Queue, channel: Channel, leaseId: Id, now: Time, id: Id): Queue
    requires id in q
  {
    var e := Expire(q, channel, now);
    e[id := Lease(e[id], leaseId, now).(status := Delivered)]
  }

  lemma RoundExtends(q: Queue, channel: Channel, leaseId: Id, now: Time, id: Id)
    requires id in q
    ensures QueueExtends(q, Round(q, channel, leaseId, now, id))
  {
  }

  lemma RoundStaysIdle(q: Queue, channel: Channel, leaseId: Id, now: Time, id: Id, later: Time)
    requires id in q && Idle(q, channel, now) && now <= later
    ensures Idle(Round(q, channel, leaseId, now, id), channel, later)
  {
  }

  lemma RoundTakesOne(q: Queue, channel: Channel, leaseId: Id, now: Time, id: Id)
    requires id in q
    ensures Undelivered(Round(q, channel, leaseId, now, id), channel) == Undelivered(q, channel) - {id}
  {
    var q' := Round(q, channel, leaseId, now, id);
    forall other <- q | other != id ensures q'[other] == Released(q[other], channel, now) {
    }
  }

  lemma PulledIsHeld(q: Queue, q1: Queue, channel: Channel, leaseId: Id, now: Time, n: Notification)
    requires Keyed(q) && Pulls(q, q1, channel, leaseId, now, Some(n))
    ensures n.id in q && Holds(q1, channel, n.id, leaseId) && Acked(q1, n.id) == Round(q, channel, leaseId, now, n.id)
  {
  }

  /** One round of pull and acknowledge takes exactly one notification out. */
  lemma RoundDelivers(o: Outbox, channel: Channel, leaseId: Id, now: Time)
    requires DistinctIds(All(o)) && PullNext(o, channel, leaseId, now).1.Some?
    ensures var (pulled, n) := PullNext(o, channel, leaseId, now);
      var (o', delivered) := Acknowledge(pulled, channel, n.value.id, leaseId);
      && delivered && DistinctIds(All(o')) && n.value.id in View(o)
      && View(o') == Round(View(o), channel, leaseId, now, n.value.id)
  {
    var (pulled, n) := PullNext(o, channel, leaseId, now);
    PullRefines(o, channel, leaseId, now);
    QueueHas(All(o));
    PulledIsHeld(View(o), View(pulled), channel, leaseId, now, n.value);
    AcknowledgeRefines(pulled, channel, n.value.id, leaseId);
  }

  /** These notifications are the undelivered ones of q, in order, each with its own content. */
  ghost predicate Drains(q: Queue, channel: Channel, notifications: seq<Notification>) {
    && |notifications| == |Undelivered(q, channel)| && InOrder(q, notifications)
    && forall n <- notifications :: n.id in Undelivered(q, channel) && n == NotificationOf(q[n.id], n.leaseId)
  }

  /** n undelivered notifications leave in exactly n rounds, in order. */
  lemma {:induction false} DrainsInOrder(o: Outbox, channel: Channel, leases: seq<Id>, times: seq<Time>)
    requires DistinctIds(All(o)) && |leases| == |times| && Ascending(times)
    requires |Undelivered(View(o), channel)| <= |leases| && (times != [] ==> Idle(View(o), channel, times[0]))
    ensures var (o', notifications) := Drain(o, channel, leases, times);
      Drains(View(o), channel, notifications) && DistinctIds(All(o')) && Undelivered(View(o'), channel) == {}
    decreases |leases|
  {
    if leases != [] {
      PullFromIdle(o, channel, leases[0], times[0]);
      var (pulled, n) := PullNext(o, channel, leases[0], times[0]);
      if n.Some? {
        RoundDelivers(o, channel, leases[0], times[0]);
        var o' := Acknowledge(pulled, channel, n.value.id, leases[0]).0;
        RoundTakesOne(View(o), channel, leases[0], times[0], n.value.id);
        if |times| > 1 { RoundStaysIdle(View(o), channel, leases[0], times[0], n.value.id, times[1]); }
        DrainsInOrder(o', channel, leases[1..], times[1..]);
        RoundExtends(View(o), channel, leases[0], times[0], n.value.id);
        RestIsLater(View(o), View(o'), channel, n.value, Drain(o', channel, leases[1..], times[1..]).1);
      } else {
        PullRefines(o, channel, leases[0], times[0]);
        ExpireKeepsUndelivered(View(o), channel, times[0]);
      }
    }
  }

  lemma ExpireKeepsUndelivered(q: Queue, channel: Channel, now: Time)
    ensures Undelivered(Expire(q, channel, now), channel) == Undelivered(q, channel)
  {
  }

  lemma RestIsLater(q: Queue, q': Queue, channel: Channel, n: Notification, rest: seq<Notification>)
    requires QueueExtends(q, q') && n.id in Undelivered(q, channel)
    requires forall id <- Undelivered(q, channel) | id != n.id :: Earlier(q[n.id], q[id])
    requires n == NotificationOf(q[n.id], n.leaseId)
    requires Undelivered(q', channel) == Undelivered(q, channel) - {n.id} && Drains(q', channel, rest)
    ensures Drains(q, channel, [n] + rest)
  {
    forall m <- rest ensures m.id in Undelivered(q, channel) && m == NotificationOf(q[m.id], m.leaseId) {
      assert SameNotification(q[m.id], q'[m.id]);
    }
    forall i, j | 0 <= i < j < |[n] + rest|
      ensures Earlier(q[([n] + rest)[i].id], q[([n] + rest)[j].id])
    {
      assert rest[j - 1] in rest;
      if i > 0 {
        assert rest[i - 1] in rest;
        assert Earlier(q'[rest[i - 1].id], q'[rest[j - 1].id]);
        assert SameNotification(q[rest[i - 1].id], q'[rest[i - 1].id]) && SameNotification(q[rest[j - 1].id], q'[rest[j - 1].id]);
      }
    }
  }

  /** From any reachable state without a running lease on the channel, alternating pulls and acknowledgements drain it. */
  lemma ChannelDrains(clock: Time, steps: seq<Step>, channel: Channel, leases: seq<Id>, times: seq<Time>)
    requires |leases| == |times| && Ascending(times) && |Undelivered(View(Reach(clock, steps).o), channel)| <= |leases|
    requires times != [] ==> Reach(clock, steps).clock <= times[0]
    requires times != [] ==> forall g <- Reach(clock, steps).grants :: g.until <= times[0]
    ensures var o := Reach(clock, steps).o;
      var (o', notifications) := Drain(o, channel, leases, times);
      Drains(View(o), channel, notifications) && Undelivered(View(o'), channel) == {}
  {
    ReachIsOk(clock, steps);
    var w := Reach(clock, steps);
    if times != [] {
      forall id <- View(w.o) | View(w.o)[id].status.Leased? ensures View(w.o)[id].status.until <= times[0] {
        var k: nat :| LastGrant(w.grants, k, View(w.o)[id]);
        assert w.grants[k] in w.grants;
      }
      forall id <- View(w.o) ensures View(w.o)[id].availableAt <= times[0] {
        assert RowOk(w.used, w.clock, View(w.o)[id]);
      }
    }
    DrainsInOrder(w.o, channel, leases, times);
  }
}
