/** The notifier: it tells the Owner of an ended Job, and repairs missing notifications when the Hub starts. */
module JobChannelNotifier {
  import opened Wrappers
  import Jobs
  import NodeTools
  import opened NotificationText
  import opened TruncateUtf8
  import opened ChannelOutbox

  type Table = Jobs.Table

  predicate Ended(t: Table, jobId: Id) {
    jobId in t.jobs && Jobs.Terminal(t.jobs[jobId].status)
  }

  function MessageOf(t: Table, jobId: Id): Text
    requires jobId in t.jobs
  {
    Message(t.jobs[jobId].status, Jobs.ListEvents(t, jobId))
  }

  /** A NUL that one of the Job's events reported lies in the part of its message that is not cut off. */
  predicate ShowsNul(t: Table, jobId: Id) {
    jobId in t.jobs && NUL in KeptPrefix(MessageOf(t, jobId), MAX_BYTES, SUFFIX)
  }

  /** What the ended Jobs are to be announced with. */
  type Texts = map<Id, Text>

  function TextsOf(t: Table): Texts {
    map jobId <- t.jobs | Ended(t, jobId) :: TerminalText(t.jobs[jobId].status, Jobs.ListEvents(t, jobId))
  }

  /** A bound, ended Job without a notification. */
  predicate Missing(o: Outbox, texts: Texts, jobId: Id) {
    jobId in o.bindings && jobId in texts && !HasKey(o.terminal, jobId)
  }

  function Observe(o: Outbox, texts: Texts, jobId: Id, id: Id, now: Time): (Outbox, Result<bool, Failure>) {
    if jobId !in texts then (o, Ok(false))
    else match EnqueueTerminal(o, jobId, texts[jobId], id, now)
      case Ok((o', created)) => (o', Ok(created))
      case Err(error) => (o, Err(error))
  }

  /** What the Owner is asked about a held call. */
  datatype Question = Question(jobId: Id, callId: Id, text: Text)

  function QuestionOf(call: NodeTools.Call, risk: Jobs.Risk, approvalEnabled: bool): Question {
    var critical := risk == Jobs.R3;
    Question(call.jobId, call.callId, ClearanceText(call.reason, critical, approvalEnabled && !critical))
  }

  function Ask(o: Outbox, q: Question, id: Id, now: Time): (Outbox, Result<bool, Failure>) {
    match EnqueueClearance(o, q.jobId, q.callId, q.text, id, now)
    case Ok((o', created)) => (o', Ok(created))
    case Err(error) => (o, Err(error))
  }

  function Counted(count: nat, observed: Result<bool, Failure>): Result<nat, Failure> {
    match observed
    case Ok(created) => Ok(count + if created then 1 else 0)
    case Err(error) => Err(error)
  }

  /** Observes the listed Jobs in turn; the count of notifications made, or the first throw. */
  function ReconcileAll(o: Outbox, texts: Texts, list: seq<Id>, ids: seq<Id>, now: Time): (Outbox, Result<nat, Failure>)
    requires |list| <= |ids|
    decreases |list|
  {
    if list == [] then (o, Ok(0))
    else
      var n := |list| - 1;
      var (before, count) := ReconcileAll(o, texts, list[..n], ids, now);
      if count.Err? then (before, count)
      else
        var (after, observed) := Observe(before, texts, list[n], ids[n], now);
        (after, Counted(count.value, observed))
  }

  /** The rows of SELECT … WHERE the Job has ended AND it has no notification. */
  ghost predicate IsListing(o: Outbox, texts: Texts, list: seq<Id>) {
    && (forall i, j | 0 <= i < j < |list| :: list[i] != list[j])
    && (forall jobId: Id :: jobId in list <==> Missing(o, texts, jobId))
  }

  class Notifier {
    const outbox: DurableOutbox
    const jobs: Jobs.SqliteJobRegistry
    const approvalEnabled: bool

    constructor (outbox: DurableOutbox, jobs: Jobs.SqliteJobRegistry, approvalEnabled: bool)
      ensures this.outbox == outbox && this.jobs == jobs && this.approvalEnabled == approvalEnabled
    {
      this.outbox, this.jobs, this.approvalEnabled := outbox, jobs, approvalEnabled;
    }

    method RequestClearance(call: NodeTools.Call, decision: NodeTools.Decision, id: Id, now: Time) returns (result: Result<bool, Failure>)
      modifies outbox`clearance
      ensures (outbox.View(), result) ==
        if decision.status == NodeTools.Pending then Ask(old(outbox.View()), QuestionOf(call, decision.risk, approvalEnabled), id, now)
        else (old(outbox.View()), Ok(false))
    {
      if decision.status != NodeTools.Pending { return Ok(false); }
      var critical := decision.risk == Jobs.R3;
      var text := ClearanceText(call.reason, critical, approvalEnabled && !critical);
      result := outbox.AddClearance(call.jobId, call.callId, text, id, now);
    }

    method ObserveJob(jobId: Id, id: Id, now: Time) returns (result: Result<bool, Failure>)
      modifies outbox`terminal
      ensures (outbox.View(), result) == Observe(old(outbox.View()), TextsOf(jobs.State()), jobId, id, now)
    {
      if !Ended(jobs.State(), jobId) { return Ok(false); }
      var text := BuildTerminalText(jobs.jobs[jobId].status, Jobs.ListEvents(jobs.State(), jobId));
      result := outbox.AddTerminal(jobId, text, id, now);
    }

    method Reconcile(list: seq<Id>, ids: seq<Id>, now: Time) returns (result: Result<nat, Failure>)
      requires |list| <= |ids|
      modifies outbox`terminal
      ensures (outbox.View(), result) == ReconcileAll(old(outbox.View()), TextsOf(jobs.State()), list, ids, now)
    {
      var created := 0;
      var n := 0;
      ghost var (start, texts) := (outbox.View(), TextsOf(jobs.State()));
      while n < |list|
        invariant 0 <= n <= |list| && texts == TextsOf(jobs.State())
        invariant (outbox.View(), Result<nat, Failure>.Ok(created)) == ReconcileAll(start, texts, list[..n], ids, now)
      {
        OneMore(start, texts, list, ids, now, n);
        var observed := ObserveJob(list[n], ids[n], now);
        if observed.Err? {
          ThrowStops(start, texts, list, ids, now, n);
          return Err(observed.error);
        }
        created := created + if observed.value then 1 else 0;
        n := n + 1;
      }
      assert list[..n] == list;
      result := Ok(created);
    }
  }

  lemma OneMore(o: Outbox, texts: Texts, list: seq<Id>, ids: seq<Id>, now: Time, n: nat)
    requires n < |list| <= |ids| && ReconcileAll(o, texts, list[..n], ids, now).1.Ok?
    ensures var (before, count) := ReconcileAll(o, texts, list[..n], ids, now);
      var (after, observed) := Observe(before, texts, list[n], ids[n], now);
      ReconcileAll(o, texts, list[..n + 1], ids, now) == (after, Counted(count.value, observed))
  {
    assert list[..n + 1][..n] == list[..n];
  }

  lemma {:induction false} ThrowStops(o: Outbox, texts: Texts, list: seq<Id>, ids: seq<Id>, now: Time, n: nat)
    requires n < |list| <= |ids| && ReconcileAll(o, texts, list[..n + 1], ids, now).1.Err?
    ensures ReconcileAll(o, texts, list, ids, now) == ReconcileAll(o, texts, list[..n + 1], ids, now)
    decreases |list|
  {
    if n + 1 == |list| {
      assert list[..n + 1] == list;
    } else {
      assert list[..|list| - 1][..n + 1] == list[..n + 1];
      ThrowStops(o, texts, list[..|list| - 1], ids, now, n);
    }
  }

  // ---- What reconciling repairs ----

  ghost predicate Repairs(o: Outbox, o': Outbox, done: seq<Id>) {
    && o'.bindings == o.bindings && o.terminal <= o'.terminal && o'.clearance == o.clearance
    && (forall jobId: Id :: HasKey(o'.terminal, jobId) <==> HasKey(o.terminal, jobId) || jobId in done)
  }

  /** How far reconciling got: the first k listed Jobs have their notification, and the next one's text was refused. */
  ghost predicate StopsAt(o: Outbox, texts: Texts, list: seq<Id>, ids: seq<Id>, now: Time, k: nat)
    requires |list| <= |ids|
  {
    var (o', count) := ReconcileAll(o, texts, list, ids, now);
    && k <= |list| && (forall i | 0 <= i < |list| :: list[i] in texts) && (forall i | 0 <= i < k :: Accepted(texts[list[i]])) && Repairs(o, o', list[..k])
    && (if k == |list| then count == Ok(k) else !Accepted(texts[list[k]]) && count == Err(BadText))
  }

  /** One more listed Job. */
  lemma ReconcileOneMore(o: Outbox, texts: Texts, list: seq<Id>, ids: seq<Id>, now: Time, k: nat) returns (k': nat)
    requires 0 < |list| <= |ids| && Missing(o, texts, list[|list| - 1]) && list[|list| - 1] !in list[..|list| - 1]
    requires StopsAt(o, texts, list[..|list| - 1], ids, now, k)
    ensures StopsAt(o, texts, list, ids, now, k')
  {
    var n := |list| - 1;
    assert list[..n][..k] == list[..k];
    k' := k;
    if k == n && Accepted(texts[list[n]]) {
      var before := ReconcileAll(o, texts, list[..n], ids, now).0;
      assert list[..n] + [list[n]] == list[..n + 1];
      AddRepairs(o, before, list[..n], list[n], texts[list[n]], ids[n], now);
      k' := n + 1;
    }
  }

  /** Each listed Job gets its notification, up to the first one whose text is refused. */
  lemma {:induction false} ReconcileRepairs(o: Outbox, texts: Texts, list: seq<Id>, ids: seq<Id>, now: Time) returns (k: nat)
    requires |list| <= |ids| && (forall i, j | 0 <= i < j < |list| :: list[i] != list[j])
    requires forall jobId <- list :: Missing(o, texts, jobId)
    ensures StopsAt(o, texts, list, ids, now, k)
    decreases |list|
  {
    if list == [] {
      k := 0;
    } else {
      var n := |list| - 1;
      k := ReconcileRepairs(o, texts, list[..n], ids, now);
      assert list[n] in list;
      k := ReconcileOneMore(o, texts, list, ids, now, k);
    }
  }

  lemma AddRepairs(o: Outbox, before: Outbox, done: seq<Id>, jobId: Id, text: Text, id: Id, now: Time)
    requires Repairs(o, before, done) && jobId in o.bindings && !HasKey(o.terminal, jobId) && jobId !in done
    ensures var (rows, created) := Enqueue(before.terminal, jobId, id, o.bindings[jobId], text, now);
      created && Repairs(o, before.(terminal := rows), done + [jobId])
  {
    var rows := Enqueue(before.terminal, jobId, id, o.bindings[jobId], text, now).0;
    forall key: Id ensures HasKey(rows, key) <==> HasKey(before.terminal, key) || key == jobId {
      if key == jobId { assert rows[|before.terminal|].key == key; }
      if HasKey(before.terminal, key) {
        var i :| 0 <= i < |before.terminal| && before.terminal[i].key == key;
        assert rows[i].key == key;
      }
    }
  }

  /** Some ended Job without notification shows a NUL. */
  ghost predicate NulIsShown(o: Outbox, t: Table) {
    exists jobId: Id :: Missing(o, TextsOf(t), jobId) && ShowsNul(t, jobId)
  }

  lemma NoneMissingIffAccepted(o: Outbox, texts: Texts, list: seq<Id>, ids: seq<Id>, now: Time)
    requires IsListing(o, texts, list) && |list| <= |ids|
    ensures var (o', count) := ReconcileAll(o, texts, list, ids, now);
      && (count.Ok? <==> forall jobId <- list :: jobId in texts && Accepted(texts[jobId]))
      && (if count.Ok? then count.value == |list| else count == Err(BadText))
      && (count.Ok? <==> forall jobId: Id :: !Missing(o', texts, jobId))
      && o'.bindings == o.bindings && o'.clearance == o.clearance
      && (forall jobId: Id | Missing(o, texts, jobId) && !Accepted(texts[jobId]) :: Missing(o', texts, jobId))
  {
    var k := ReconcileRepairs(o, texts, list, ids, now);
    var (o', count) := ReconcileAll(o, texts, list, ids, now);
    assert list[..|list|] == list;
    forall jobId: Id | Missing(o, texts, jobId) && !Accepted(texts[jobId]) ensures Missing(o', texts, jobId) {
      assert jobId !in list[..k];
    }
    if k < |list| {
      assert list[k] in list && list[k] !in list[..k];
      assert Missing(o', texts, list[k]);
    }
  }

  /** The text of an ended Job is refused exactly when it shows a NUL. */
  lemma RefusedIffNul(t: Table, jobId: Id)
    requires Ended(t, jobId)
    ensures jobId in TextsOf(t) && (Accepted(TextsOf(t)[jobId]) <==> !ShowsNul(t, jobId))
  {
    TerminalTextIsRefusedIff(t.jobs[jobId].status, Jobs.ListEvents(t, jobId));
  }

  /** Reconciling leaves no ended Job without its notification exactly when no missing one's message shows a NUL. */
  lemma ReconcileLeavesNoneMissing(o: Outbox, t: Table, list: seq<Id>, ids: seq<Id>, now: Time)
    requires IsListing(o, TextsOf(t), list) && |list| <= |ids|
    ensures var (o', count) := ReconcileAll(o, TextsOf(t), list, ids, now);
      && (count.Ok? <==> !NulIsShown(o, t))
      && (if count.Ok? then count.value == |list| else count == Err(BadText))
      && (count.Ok? <==> forall jobId: Id :: !Missing(o', TextsOf(t), jobId))
      && o'.bindings == o.bindings && o'.clearance == o.clearance
  {
    forall jobId <- list ensures jobId in TextsOf(t) && (Accepted(TextsOf(t)[jobId]) <==> !ShowsNul(t, jobId)) {
      RefusedIffNul(t, jobId);
    }
    NoneMissingIffAccepted(o, TextsOf(t), list, ids, now);
  }

  /** The same Jobs have ended, alike and with the same events. While the Hub is down nothing adds to them. */
  ghost predicate SameEndings(t: Table, t': Table) {
    && t'.events == t.events
    && (forall jobId: Id :: Ended(t, jobId) <==> Ended(t', jobId))
    && (forall jobId: Id | Ended(t, jobId) ::
          t'.jobs[jobId].status == t.jobs[jobId].status && t'.jobs[jobId].lastSequence == t.jobs[jobId].lastSequence)
  }

  lemma {:induction false} SameEvents(t: Table, t': Table, jobId: Id, last: int)
    requires t'.events == t.events
    ensures Jobs.EventsUpTo(t', jobId, last) == Jobs.EventsUpTo(t, jobId, last)
    decreases last + 1
  {
    if last >= 0 {
      SameEvents(t, t', jobId, last - 1);
    }
  }

  lemma SameTexts(t: Table, t': Table, jobId: Id)
    requires SameEndings(t, t') && Ended(t, jobId)
    ensures jobId in TextsOf(t) && jobId in TextsOf(t') && TextsOf(t')[jobId] == TextsOf(t)[jobId]
    ensures ShowsNul(t', jobId) <==> ShowsNul(t, jobId)
  {
    SameEvents(t, t', jobId, t.jobs[jobId].lastSequence);
  }

  /** A throw of one start is a throw of the next one, although the Jobs before the refused one got their notification. */
  lemma ThrowsAgain(o: Outbox, t: Table, list: seq<Id>, ids: seq<Id>, now: Time, t': Table, list': seq<Id>, ids': seq<Id>, now': Time)
    requires IsListing(o, TextsOf(t), list) && |list| <= |ids| && ReconcileAll(o, TextsOf(t), list, ids, now).1.Err?
    requires SameEndings(t, t')
    requires IsListing(ReconcileAll(o, TextsOf(t), list, ids, now).0, TextsOf(t'), list') && |list'| <= |ids'|
    ensures ReconcileAll(ReconcileAll(o, TextsOf(t), list, ids, now).0, TextsOf(t'), list', ids', now').1 == Err(BadText)
  {
    var o' := ReconcileAll(o, TextsOf(t), list, ids, now).0;
    NoneMissingIffAccepted(o, TextsOf(t), list, ids, now);
    var jobId :| jobId in list && !Accepted(TextsOf(t)[jobId]);
    SameTexts(t, t', jobId);
    assert Missing(o', TextsOf(t'), jobId);
    NoneMissingIffAccepted(o', TextsOf(t'), list', ids', now');
  }
}
