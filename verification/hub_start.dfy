/** What a start of the Hub does with the work it finds: it opens the node tool policy, repairs the missing notifications of
    ended Jobs, and asks again for the held calls. The first step that throws leaves the Hub down. */
module HubStart {
  import opened Wrappers
  import opened Jobs
  import opened NodeTools
  import HubRuns
  import opened HubGuarantees
  import HubRestart
  import opened NotificationText
  import ChannelOutbox
  import opened JobChannelNotifier

  type Outbox = ChannelOutbox.Outbox

  datatype Failure = OfPolicy(refusal: Refusal) | OfNotifier(failure: ChannelOutbox.Failure)

  /** What the queries of a start return, in their orders, and the ids drawn for the notifications. */
  datatype Found = Found(rows: seq<Row>, ended: seq<Id>, held: seq<Row>, ids: seq<Id>) {
    predicate EnoughIds() {
      |ended| + |held| <= |ids|
    }
  }

  function Opened(h: Hub, rows: seq<Row>, now: Time): Hub {
    After(h, ReconcileRows(h, rows, now).committed)
  }

  /** Asks in turn, up to the first throw. */
  function AskAll(o: Outbox, questions: seq<Question>, ids: seq<Id>, now: Time): (Outbox, Result<(), ChannelOutbox.Failure>)
    requires |questions| <= |ids|
    decreases |questions|
  {
    if questions == [] then (o, Ok(()))
    else
      var n := |questions| - 1;
      var (before, result) := AskAll(o, questions[..n], ids, now);
      if result.Err? then (before, result)
      else
        var (after, asked) := Ask(before, questions[n], ids[n], now);
        (after, if asked.Ok? then Ok(()) else Err(asked.error))
  }

  function Questions(held: seq<Row>, approvalEnabled: bool): (questions: seq<Question>)
    ensures |questions| == |held|
  {
    seq(|held|, i requires 0 <= i < |held| => QuestionOf(held[i].call, held[i].risk, approvalEnabled))
  }

  function Notify(o: Outbox, t: Table, f: Found, approvalEnabled: bool, now: Time): (Outbox, Result<(), ChannelOutbox.Failure>)
    requires f.EnoughIds()
  {
    var (o', count) := ReconcileAll(o, TextsOf(t), f.ended, f.ids, now);
    if count.Err? then (o', Err(count.error)) else AskAll(o', Questions(f.held, approvalEnabled), f.ids[|f.ended|..], now)
  }

  function Start(h: Hub, o: Outbox, f: Found, approvalEnabled: bool, now: Time): (Outbox, Result<(), Failure>)
    requires f.EnoughIds()
  {
    var policy := ReconcileRows(h, f.rows, now).result;
    if policy.Err? then (o, Err(OfPolicy(policy.error)))
    else
      var (o', result) := Notify(o, Opened(h, f.rows, now).jobs, f, approvalEnabled, now);
      (o', if result.Err? then Err(OfNotifier(result.error)) else Ok(()))
  }

  ghost predicate AllHeld(calls: map<Id, Row>, rows: seq<Row>) {
    && (forall row <- rows :: row.call.callId in calls && calls[row.call.callId] == row && row.status == Pending)
    && (forall c <- calls | calls[c].status == Pending :: calls[c] in rows)
  }

  ghost predicate Finds(h: Hub, o: Outbox, f: Found, now: Time) {
    var h' := Opened(h, f.rows, now);
    AllRows(h.calls, f.rows) && IsListing(o, TextsOf(h'.jobs), f.ended) && AllHeld(h'.calls, f.held) && f.EnoughIds()
  }

  // ---- Opening the policy ends no Job ----

  lemma RowKeepsEndings(h: Hub, row: Row, now: Time)
    ensures SameEndings(h.jobs, After(h, ReconcileRow(h, row, now).committed).jobs)
  {
  }

  lemma {:induction false} LoopKeepsEndings(h: Hub, rows: seq<Row>, now: Time)
    ensures SameEndings(h.jobs, Opened(h, rows, now).jobs)
    decreases |rows|
  {
    if rows != [] {
      var first := ReconcileRow(h, rows[0], now);
      RowKeepsEndings(h, rows[0], now);
      if first.result.Ok? {
        var h' := After(h, first.committed);
        LoopKeepsEndings(h', rows[1..], now);
        AfterAppend(h, first.committed, ReconcileRows(h', rows[1..], now).committed);
      }
    }
  }

  lemma SameNulIsShown(o: Outbox, t: Table, t': Table)
    requires SameEndings(t, t')
    ensures NulIsShown(o, t') <==> NulIsShown(o, t)
  {
    forall jobId: Id
      ensures Missing(o, TextsOf(t'), jobId) && ShowsNul(t', jobId) <==> Missing(o, TextsOf(t), jobId) && ShowsNul(t, jobId)
    {
      if JobChannelNotifier.Ended(t, jobId) { SameTexts(t, t', jobId); }
    }
  }

  // ---- The held calls are always announced ----

  /** The questions about bound Jobs have their notification, and nothing else of the outbox changed. */
  ghost predicate Asked(o: Outbox, o': Outbox, questions: seq<Question>) {
    && o'.bindings == o.bindings && o'.terminal == o.terminal && o.clearance <= o'.clearance
    && forall q <- questions | q.jobId in o.bindings :: ChannelOutbox.HasKey(o'.clearance, q.callId)
  }

  lemma AskSucceeds(o: Outbox, q: Question, id: Id, now: Time)
    requires Accepted(q.text)
    ensures Ask(o, q, id, now).1.Ok? && Asked(o, Ask(o, q, id, now).0, [q])
  {
    var o' := Ask(o, q, id, now).0;
    if o' != o { assert o'.clearance[|o.clearance|].key == q.callId; }
  }

  lemma AskedOneMore(o: Outbox, o': Outbox, o'': Outbox, questions: seq<Question>, q: Question)
    requires Asked(o, o', questions) && Asked(o', o'', [q])
    ensures Asked(o, o'', questions + [q])
  {
    forall r <- questions + [q] | r.jobId in o.bindings ensures ChannelOutbox.HasKey(o''.clearance, r.callId) {
      if r in questions {
        var i :| 0 <= i < |o'.clearance| && o'.clearance[i].key == r.callId;
        assert o''.clearance[i].key == r.callId;
      }
    }
  }

  lemma {:induction false} AskAllSucceeds(o: Outbox, questions: seq<Question>, ids: seq<Id>, now: Time)
    requires |questions| <= |ids| && forall q <- questions :: Accepted(q.text)
    ensures var (o', result) := AskAll(o, questions, ids, now); result == Ok(()) && Asked(o, o', questions)
    decreases |questions|
  {
    if questions != [] {
      var n := |questions| - 1;
      AskAllSucceeds(o, questions[..n], ids, now);
      var o' := AskAll(o, questions[..n], ids, now).0;
      assert questions[n] in questions;
      AskSucceeds(o', questions[n], ids[n], now);
      AskedOneMore(o, o', AskAll(o, questions, ids, now).0, questions[..n], questions[n]);
      assert questions[..n] + [questions[n]] == questions;
    }
  }

  /** The bound ones of these held calls have their notification. */
  ghost predicate Announced(o: Outbox, held: seq<Row>) {
    forall row <- held | row.call.jobId in o.bindings :: ChannelOutbox.HasKey(o.clearance, row.call.callId)
  }

  lemma HeldCallsAreAnnounced(o: Outbox, held: seq<Row>, approvalEnabled: bool, ids: seq<Id>, now: Time)
    requires |held| <= |ids| && forall row <- held :: NUL !in row.call.reason
    ensures var (o', result) := AskAll(o, Questions(held, approvalEnabled), ids, now);
      result == Ok(()) && o'.bindings == o.bindings && o'.terminal == o.terminal && Announced(o', held)
  {
    var questions := Questions(held, approvalEnabled);
    forall i | 0 <= i < |held| ensures Accepted(questions[i].text) {
      var critical := held[i].risk == R3;
      ClearanceIsAccepted(held[i].call.reason, critical, approvalEnabled && !critical);
    }
    AskAllSucceeds(o, questions, ids, now);
    var o' := AskAll(o, questions, ids, now).0;
    forall row <- held | row.call.jobId in o'.bindings ensures ChannelOutbox.HasKey(o'.clearance, row.call.callId) {
      var i :| 0 <= i < |held| && held[i] == row;
      assert questions[i] in questions;
    }
  }

  lemma HeldReasonsAreValid(clock: Time, steps: seq<HubRuns.Step>, rows: seq<Row>, held: seq<Row>, now: Time)
    requires Reach(clock, steps).clock <= now
    requires AllHeld(Opened(Reach(clock, steps).hub, rows, now).calls, held)
    ensures forall row <- held :: NUL !in row.call.reason
  {
    var w := HubRestart.OpenedIsGood(clock, steps, rows, now);
    forall row <- held ensures NUL !in row.call.reason {
      assert HubRuns.RowOk(w, row.call.callId, w.hub.calls[row.call.callId]);
    }
  }

  // ---- When the Hub starts ----

  lemma SameMissing(o: Outbox, o': Outbox, texts: Texts)
    requires o'.bindings == o.bindings && o'.terminal == o.terminal && forall jobId: Id :: !Missing(o, texts, jobId)
    ensures forall jobId: Id :: !Missing(o', texts, jobId)
  {
    forall jobId: Id ensures !Missing(o', texts, jobId) {
      assert !Missing(o, texts, jobId);
    }
  }

  lemma NotifiesIff(o: Outbox, t: Table, f: Found, approvalEnabled: bool, now: Time)
    requires IsListing(o, TextsOf(t), f.ended) && f.EnoughIds() && forall row <- f.held :: NUL !in row.call.reason
    ensures var (o', result) := Notify(o, t, f, approvalEnabled, now);
      && (result.Ok? <==> !NulIsShown(o, t))
      && (result.Ok? ==> Announced(o', f.held) && forall jobId: Id :: !Missing(o', TextsOf(t), jobId))
  {
    var (o', count) := ReconcileAll(o, TextsOf(t), f.ended, f.ids, now);
    ReconcileLeavesNoneMissing(o, t, f.ended, f.ids, now);
    HeldCallsAreAnnounced(o', f.held, approvalEnabled, f.ids[|f.ended|..], now);
    if count.Ok? { SameMissing(o', Notify(o, t, f, approvalEnabled, now).0, TextsOf(t)); }
  }

  /** A start gets past these steps exactly when no held call is blocked and no bound, ended Job without notification shows
      a NUL. */
  lemma StartsIff(clock: Time, steps: seq<HubRuns.Step>, o: Outbox, f: Found, approvalEnabled: bool, now: Time)
    requires Reach(clock, steps).clock <= now && Finds(Reach(clock, steps).hub, o, f, now)
    ensures var h := Reach(clock, steps).hub;
      Start(h, o, f, approvalEnabled, now).1.Ok? <==>
        (forall c <- h.calls :: !HubRestart.Blocked(h.jobs, h.calls[c], now)) && !NulIsShown(o, h.jobs)
  {
    var h := Reach(clock, steps).hub;
    var h' := Opened(h, f.rows, now);
    HubRestart.OpenThrowsIffBlocked(clock, steps, f.rows, now);
    HeldReasonsAreValid(clock, steps, f.rows, f.held, now);
    NotifiesIff(o, h'.jobs, f, approvalEnabled, now);
    LoopKeepsEndings(h, f.rows, now);
    SameNulIsShown(o, h.jobs, h'.jobs);
  }

  /** A Hub that got past them has settled every call, and told of every bound Job that ended and every bound call that is
      held. */
  lemma StartedHubIsInOrder(clock: Time, steps: seq<HubRuns.Step>, o: Outbox, f: Found, approvalEnabled: bool, now: Time)
    requires Reach(clock, steps).clock <= now && Finds(Reach(clock, steps).hub, o, f, now)
    requires Start(Reach(clock, steps).hub, o, f, approvalEnabled, now).1.Ok?
    ensures var h' := Opened(Reach(clock, steps).hub, f.rows, now);
      var o' := Start(Reach(clock, steps).hub, o, f, approvalEnabled, now).0;
      && HubRestart.NoOrphan(h', now) && HubRestart.NoStuckHold(h')
      && (forall jobId: Id :: !Missing(o', TextsOf(h'.jobs), jobId))
      && Announced(o', f.held) && AllHeld(h'.calls, f.held)
  {
    var h := Reach(clock, steps).hub;
    HubRestart.RestartReconciles(h, f.rows, now);
    HeldReasonsAreValid(clock, steps, f.rows, f.held, now);
    NotifiesIff(o, Opened(h, f.rows, now).jobs, f, approvalEnabled, now);
  }

  /** A Hub that a text kept from starting stays down: the next start throws as well. */
  lemma StaysDown(clock: Time, steps: seq<HubRuns.Step>, o: Outbox, f: Found, approvalEnabled: bool, now: Time,
                  f': Found, approvalEnabled': bool, now': Time)
    requires Reach(clock, steps).clock <= now && Finds(Reach(clock, steps).hub, o, f, now)
    requires Start(Reach(clock, steps).hub, o, f, approvalEnabled, now).1.Err?
    requires Start(Reach(clock, steps).hub, o, f, approvalEnabled, now).1.error.OfNotifier?
    requires var h := Reach(clock, steps).hub;
      Finds(Opened(h, f.rows, now), Start(h, o, f, approvalEnabled, now).0, f', now')
    ensures var h := Reach(clock, steps).hub;
      Start(Opened(h, f.rows, now), Start(h, o, f, approvalEnabled, now).0, f', approvalEnabled', now').1.Err?
  {
    var h := Reach(clock, steps).hub;
    var h' := Opened(h, f.rows, now);
    HeldReasonsAreValid(clock, steps, f.rows, f.held, now);
    NotifiesIff(o, h'.jobs, f, approvalEnabled, now);
    ReconcileLeavesNoneMissing(o, h'.jobs, f.ended, f.ids, now);
    LoopKeepsEndings(h', f'.rows, now');
    HeldCallsAreAnnounced(ReconcileAll(o, TextsOf(h'.jobs), f.ended, f.ids, now).0, f.held, approvalEnabled, f.ids[|f.ended|..], now);
    ThrowsAgain(o, h'.jobs, f.ended, f.ids, now, Opened(h', f'.rows, now').jobs, f'.ended, f'.ids, now');
  }

  // ---- The listed events are all stored events ----

  lemma {:induction false} EventsUpToAre(t: Table, jobId: Id, last: int)
    requires -1 <= last && forall n | 0 <= n <= last :: (jobId, n) in t.events
    ensures var events := EventsUpTo(t, jobId, last);
      |events| == last + 1 && forall n | 0 <= n <= last :: events[n] == t.events[(jobId, n)]
    decreases last + 1
  {
    if last >= 0 {
      EventsUpToAre(t, jobId, last - 1);
    }
  }

  /** In every reachable state listEvents gives each stored event of the Job, in order. */
  lemma ListEventsIsComplete(clock: Time, steps: seq<HubRuns.Step>, jobId: Id)
    requires jobId in Reach(clock, steps).hub.jobs.jobs
    ensures var t := Reach(clock, steps).hub.jobs;
      var events := ListEvents(t, jobId);
      && (forall n | 0 <= n < |events| :: (jobId, n) in t.events && events[n] == t.events[(jobId, n)])
      && (forall k <- t.events | k.0 == jobId :: 0 <= k.1 < |events|)
  {
    ReachIsGood(clock, steps);
    var t := Reach(clock, steps).hub.jobs;
    EventsUpToAre(t, jobId, t.jobs[jobId].lastSequence);
  }
}
