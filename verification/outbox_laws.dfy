/** What a notification says, to whom it goes, and what each call of the outbox does to the queue. */
module OutboxLaws {
  import opened Wrappers
  import opened Utf8
  import NotificationText
  import opened ChannelOutbox
  import opened OutboxQueue
  import opened OutboxRuns
  import opened OutboxGuarantees

  // ---- Binding and enqueueing ----

  /** A Job is bound to its first recipient for good. */
  lemma BoundIff(o: Outbox, jobId: Id, to: Binding)
    ensures var r := Bind(o, jobId, to);
      && (r.Ok? <==> (jobId in o.bindings ==> o.bindings[jobId] == to))
      && (r.Ok? ==> r.value == Outbox(o.bindings[jobId := to], o.terminal, o.clearance))
  {
  }

  predicate NoRowOf(rows: seq<Row>, key: Id) {
    forall row <- rows :: row.key != key
  }

  lemma HasKeyIff(rows: seq<Row>, key: Id)
    ensures HasKey(rows, key) <==> !NoRowOf(rows, key)
  {
    if HasKey(rows, key) {
      var i :| 0 <= i < |rows| && rows[i].key == key;
      assert rows[i] in rows;
    }
  }

  /** A text with something to see, of at most 14 KiB, without NUL. */
  ghost predicate Readable(text: Text) {
    (exists c <- text :: !NotificationText.IsSpace(c)) && ByteLength(text) <= 14_336 && 0 !in text
  }

  lemma ReadableIff(text: Text)
    ensures NotificationText.Accepted(text) <==> Readable(text)
  {
    NotificationText.NothingLeftIff(text);
  }

  /** The new row carries the text to the bound recipient, and waits from now on. */
  predicate IsNewRow(row: Row, id: Id, key: Id, to: Binding, text: Text, now: Time) {
    && row.id == id && row.key == key && row.channel == to.channel && row.senderId == to.senderId && row.text == text
    && row.status == Waiting && row.attempts == 0 && row.availableAt == now && row.createdAt == now
  }

  /** An ended Job's notification is added exactly when its text can be read, it is bound, and it has none yet. */
  lemma TerminalIsAddedIff(o: Outbox, jobId: Id, text: Text, id: Id, now: Time)
    ensures var r := EnqueueTerminal(o, jobId, text, id, now);
      && (r.Ok? <==> Readable(text))
      && (r.Ok? ==>
            && (r.value.1 <==> jobId in o.bindings && NoRowOf(o.terminal, jobId))
            && if r.value.1
               then
                 && r.value.0 == o.(terminal := r.value.0.terminal) && |r.value.0.terminal| == |o.terminal| + 1
                 && r.value.0.terminal[..|o.terminal|] == o.terminal
                 && IsNewRow(r.value.0.terminal[|o.terminal|], id, jobId, o.bindings[jobId], text, now)
               else r.value.0 == o)
  {
    ReadableIff(text);
    HasKeyIff(o.terminal, jobId);
  }

  /** So is a held call's, which goes to its Job's recipient. */
  lemma ClearanceIsAddedIff(o: Outbox, jobId: Id, callId: Id, text: Text, id: Id, now: Time)
    ensures var r := EnqueueClearance(o, jobId, callId, text, id, now);
      && (r.Ok? <==> Readable(text))
      && (r.Ok? ==>
            && (r.value.1 <==> jobId in o.bindings && NoRowOf(o.clearance, callId))
            && if r.value.1
               then
                 && r.value.0 == o.(clearance := r.value.0.clearance) && |r.value.0.clearance| == |o.clearance| + 1
                 && r.value.0.clearance[..|o.clearance|] == o.clearance
                 && IsNewRow(r.value.0.clearance[|o.clearance|], id, callId, o.bindings[jobId], text, now)
               else r.value.0 == o)
  {
    ReadableIff(text);
    HasKeyIff(o.clearance, callId);
  }

  // ---- Pulling and acknowledging ----

  /** The row's content and its place in the order. */
  predicate SameContent(row: Row, row': Row) {
    && row'.id == row.id && row'.key == row.key && row'.channel == row.channel && row'.senderId == row.senderId
    && row'.text == row.text && row'.createdAt == row.createdAt
  }

  /** The notification says what its row says, and the row is leased under the given id for one minute and counted as one more
      attempt. Of the other rows only those whose lease ran out in this channel change: they wait again. */
  predicate PulledFrom(q: Queue, q': Queue, channel: Channel, leaseId: Id, now: Time, result: Option<Notification>) {
    && q'.Keys == q.Keys
    && (result.Some? ==>
          var n := result.value;
          && n.id in q && n.channel == channel == q[n.id].channel && n.senderId == q[n.id].senderId && n.text == q[n.id].text
          && n.leaseId == leaseId
          && SameContent(q[n.id], q'[n.id]) && q'[n.id].status == Leased(leaseId, now + 60_000) && q'[n.id].attempts == q[n.id].attempts + 1)
    && forall id <- q | result.None? || id != result.value.id :: RunsOut(q[id], q'[id], channel, now)
  }

  predicate RunsOut(row: Row, row': Row, channel: Channel, now: Time) {
    if row.channel == channel && row.status.Leased? && row.status.until <= now
    then SameContent(row, row') && row'.status == Waiting && row'.attempts == row.attempts && row'.availableAt == now
    else row' == row
  }

  lemma PullsIsPulledFrom(q: Queue, q': Queue, channel: Channel, leaseId: Id, now: Time, result: Option<Notification>)
    requires Keyed(q) && Pulls(q, q', channel, leaseId, now, result)
    ensures PulledFrom(q, q', channel, leaseId, now, result)
  {
    ExpiredRows(q, channel, now);
  }

  lemma QueueIsKeyed(clock: Time, steps: seq<Step>)
    ensures var o := Reach(clock, steps).o; DistinctIds(All(o)) && Keyed(View(o))
  {
    ReachIsOk(clock, steps);
  }

  lemma PullIs(o: Outbox, channel: Channel, leaseId: Id, now: Time)
    requires DistinctIds(All(o)) && Keyed(View(o))
    ensures var (o', result) := PullNext(o, channel, leaseId, now);
      o'.bindings == o.bindings && PulledFrom(View(o), View(o'), channel, leaseId, now, result)
  {
    PullKeepsContent(o, channel, leaseId, now);
    PullRefines(o, channel, leaseId, now);
    PullsIsPulledFrom(View(o), View(PullNext(o, channel, leaseId, now).0), channel, leaseId, now, PullNext(o, channel, leaseId, now).1);
  }

  /** In every reachable state a pull changes the queue so. */
  lemma PulledAs(clock: Time, steps: seq<Step>, channel: Channel, leaseId: Id, now: Time)
    ensures var (o, (o', result)) := (Reach(clock, steps).o, PullNext(Reach(clock, steps).o, channel, leaseId, now));
      o'.bindings == o.bindings && PulledFrom(View(o), View(o'), channel, leaseId, now, result)
  {
    QueueIsKeyed(clock, steps);
    PullIs(Reach(clock, steps).o, channel, leaseId, now);
  }

  lemma ExpiredRows(q: Queue, channel: Channel, now: Time)
    ensures Expire(q, channel, now).Keys == q.Keys
    ensures forall id <- q :: RunsOut(q[id], Expire(q, channel, now)[id], channel, now)
  {
  }

  /** Neither delivered nor under a lease that still runs. */
  predicate MayBePulled(row: Row, channel: Channel, now: Time) {
    row.channel == channel && (row.status.Leased? ==> row.status.until <= now) && row.status != Delivered
  }

  predicate IsOlder(row: Row, other: Row) {
    row.createdAt < other.createdAt || (row.createdAt == other.createdAt && row.id < other.id)
  }

  /** In every reachable state a pull returns the oldest notification of the channel that may be pulled, by id among equally old
      ones, and nothing exactly when there is none. */
  lemma OldestIsPulled(clock: Time, steps: seq<Step>, channel: Channel, leaseId: Id, now: Time)
    requires Reach(clock, steps).clock <= now
    ensures var (q, result) := (View(Reach(clock, steps).o), PullNext(Reach(clock, steps).o, channel, leaseId, now).1);
      && (result.None? <==> forall id <- q :: !MayBePulled(q[id], channel, now))
      && (result.Some? ==>
            && result.value.id in q && MayBePulled(q[result.value.id], channel, now)
            && forall id <- q | id != result.value.id && MayBePulled(q[id], channel, now) :: IsOlder(q[result.value.id], q[id]))
  {
    PullReturnsTheLeast(clock, steps, channel, leaseId, now);
  }

  /** A channel without running leases is drained oldest first. */
  lemma DrainedOldestFirst(clock: Time, steps: seq<Step>, channel: Channel, leases: seq<Id>, times: seq<Time>, i: nat, j: nat)
    requires |leases| == |times| && Ascending(times) && |Undelivered(View(Reach(clock, steps).o), channel)| <= |leases|
    requires times != [] ==> Reach(clock, steps).clock <= times[0]
    requires times != [] ==> forall g <- Reach(clock, steps).grants :: g.until <= times[0]
    requires i < j < |Drain(Reach(clock, steps).o, channel, leases, times).1|
    ensures var (q, notifications) := (View(Reach(clock, steps).o), Drain(Reach(clock, steps).o, channel, leases, times).1);
      notifications[i].id in q && notifications[j].id in q && IsOlder(q[notifications[i].id], q[notifications[j].id])
  {
    ChannelDrains(clock, steps, channel, leases, times);
    var notifications := Drain(Reach(clock, steps).o, channel, leases, times).1;
    assert notifications[i] in notifications && notifications[j] in notifications;
  }

  /** In every reachable state an acknowledgement is taken exactly when that notification of the channel is leased under this very
      id. Then it is delivered, and nothing else changes; otherwise nothing does. */
  lemma AcknowledgedIff(clock: Time, steps: seq<Step>, channel: Channel, id: Id, leaseId: Id)
    ensures var (o, (o', delivered)) := (Reach(clock, steps).o, Acknowledge(Reach(clock, steps).o, channel, id, leaseId));
      var (q, q') := (View(o), View(o'));
      && o'.bindings == o.bindings
      && (delivered <==> id in q && q[id].channel == channel && q[id].status.Leased? && q[id].status.leaseId == leaseId)
      && q' == if delivered then q[id := q[id].(status := Delivered)] else q
  {
    ReachIsOk(clock, steps);
    AcknowledgeRefines(Reach(clock, steps).o, channel, id, leaseId);
  }

  // ---- Recipients ----

  ghost predicate ToTheirRecipients(o: Outbox) {
    forall row <- o.terminal ::
      row.key in o.bindings && row.channel == o.bindings[row.key].channel && row.senderId == o.bindings[row.key].senderId
  }

  lemma DeliverKeepsContent(rows: seq<Row>, channel: Channel, id: Id, leaseId: Id)
    ensures var rows' := Deliver(rows, channel, id, leaseId).0;
      |rows'| == |rows| && forall i | 0 <= i < |rows| :: SameContent(rows[i], rows'[i])
  {
    var at := DeliverFinds(rows, channel, id, leaseId);
  }

  lemma SameContentSameRecipients(o: Outbox, o': Outbox)
    requires ToTheirRecipients(o) && o'.bindings == o.bindings && |o'.terminal| == |o.terminal|
    requires forall i | 0 <= i < |o.terminal| :: SameContent(o.terminal[i], o'.terminal[i])
    ensures ToTheirRecipients(o')
  {
    forall row <- o'.terminal
      ensures row.key in o'.bindings && row.channel == o'.bindings[row.key].channel && row.senderId == o'.bindings[row.key].senderId
    {
      var i :| 0 <= i < |o'.terminal| && o'.terminal[i] == row;
      assert o.terminal[i] in o.terminal && SameContent(o.terminal[i], row);
    }
  }

  lemma PullKeepsContent(o: Outbox, channel: Channel, leaseId: Id, now: Time)
    ensures var o' := PullNext(o, channel, leaseId, now).0;
      && o'.bindings == o.bindings && |o'.terminal| == |o.terminal|
      && forall i | 0 <= i < |o.terminal| :: SameContent(o.terminal[i], o'.terminal[i])
  {
    ReleaseIsRowwise(o.terminal, channel, now);
  }

  lemma NextKeepsRecipients(w: World, s: Step)
    requires ToTheirRecipients(w.o)
    ensures ToTheirRecipients(Next(w, s).o)
  {
    match s
    case EndsJob(jobId, text, id, now) => TerminalIsAddedIff(w.o, jobId, text, id, now); AddedRecipients(w.o, Next(w, s).o);
    case PullsFrom(channel, leaseId, now) =>
      PullKeepsContent(w.o, channel, leaseId, now);
      SameContentSameRecipients(w.o, PullNext(w.o, channel, leaseId, now).0);
    case Acknowledges(channel, id, leaseId) =>
      DeliverKeepsContent(w.o.terminal, channel, id, leaseId);
      SameContentSameRecipients(w.o, Acknowledge(w.o, channel, id, leaseId).0);
    case _ =>
  }

  lemma AddedRecipients(o: Outbox, o': Outbox)
    requires ToTheirRecipients(o) && o'.bindings == o.bindings
    requires o'.terminal == o.terminal || (
      |o'.terminal| == |o.terminal| + 1 && o'.terminal[..|o.terminal|] == o.terminal
      && var row := o'.terminal[|o.terminal|];
         row.key in o.bindings && row.channel == o.bindings[row.key].channel && row.senderId == o.bindings[row.key].senderId)
    ensures ToTheirRecipients(o')
  {
    forall row <- o'.terminal
      ensures row.key in o'.bindings && row.channel == o'.bindings[row.key].channel && row.senderId == o'.bindings[row.key].senderId
    {
      var i :| 0 <= i < |o'.terminal| && o'.terminal[i] == row;
      if i < |o.terminal| { assert o'.terminal[..|o.terminal|][i] in o.terminal; }
    }
  }

  lemma {:induction false} RunKeepsRecipients(w: World, steps: seq<Step>)
    requires ToTheirRecipients(w.o)
    ensures ToTheirRecipients(RunAll(w, steps).o)
    decreases |steps|
  {
    if steps != [] {
      NextKeepsRecipients(w, steps[0]);
      RunKeepsRecipients(Next(w, steps[0]), steps[1..]);
    }
  }

  /** Over any run, the notification of an ended Job goes to the recipient that the Job is bound to. */
  lemma JobsOwnRecipientIsTold(clock: Time, steps: seq<Step>, row: Row)
    requires row in Reach(clock, steps).o.terminal
    ensures var o := Reach(clock, steps).o;
      row.key in o.bindings && row.channel == o.bindings[row.key].channel && row.senderId == o.bindings[row.key].senderId
  {
    RunKeepsRecipients(Fresh(clock), steps);
  }
}
