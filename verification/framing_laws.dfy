/** What the records of a stream come to: which requests are answered, and what the active turn gets for a reply. */
module FramingLaws {
  import opened Wrappers
  import opened Utf8
  import opened Framing

  /** A line is handled exactly when it is neither empty nor longer than 16 MiB and parses as an event, or as the response to a
      request that is still open. */
  lemma LineIsHandledIff(w: Worker, d: Desk, line: Text)
    ensures HandleLine(w, d, line).Some? <==>
      && line != [] && ByteLength(line) <= 16_777_216 && w.parse(line).Some?
      && match w.parse(line).value
         case Response(id) => id in d.pending
         case Event(_, _, _) => true
         case Request => false
  {
  }

  /** A response closes its request and no other, and leaves the turn alone; an event closes none. */
  lemma HandledLine(w: Worker, d: Desk, line: Text)
    requires HandleLine(w, d, line).Some?
    ensures var (d', r) := (HandleLine(w, d, line).value, w.parse(line).value);
      && w.parse(line).Some? && d'.dispatched == d.dispatched + [r]
      && (r.Response? ==> r.requestId in d.pending && d'.pending == d.pending - {r.requestId} && d'.turn == d.turn)
      && (r.Event? ==> d'.pending == d.pending && (d'.turn.Some? <==> d.turn.Some?))
  {
  }

  // ---- The reply of a turn ----

  /** The events of the turn's own session. */
  predicate Ours(r: Record, sessionId: Id) {
    r.Event? && r.sessionId == sessionId
  }

  /** The last text that the session has given, up to this record. */
  function LastText(records: seq<Record>, sessionId: Id): Option<Text> {
    if records == [] then None
    else
      var r := records[|records| - 1];
      if Ours(r, sessionId) && r.assistantText.Some? then r.assistantText else LastText(records[..|records| - 1], sessionId)
  }

  predicate Settles(r: Record, sessionId: Id) {
    Ours(r, sessionId) && r.settles
  }

  /** A text that is given, not blank, and at most 64 KiB long is the reply; with none such the turn has failed. */
  function ReplyOf(w: Worker, text: Option<Text>): Outcome {
    if text.Some? && !w.blank(text.value) && ByteLength(text.value) <= 65_536 then Replied(text.value) else Failed
  }

  /** What these records have decided, if anything. */
  function Decided(w: Worker, records: seq<Record>, sessionId: Id): Option<Outcome> {
    if records == [] then None
    else
      var n := |records| - 1;
      var before := Decided(w, records[..n], sessionId);
      if before.Some? then before
      else if Settles(records[n], sessionId) then Some(ReplyOf(w, LastText(records, sessionId)))
      else None
  }

  /** Nothing is decided while the session has not settled; when it first settles, its last text up to there decides for good. */
  lemma {:induction false} FirstSettleDecides(w: Worker, records: seq<Record>, sessionId: Id)
    ensures Decided(w, records, sessionId).None? <==> forall i | 0 <= i < |records| :: !Settles(records[i], sessionId)
    ensures forall i | 0 <= i < |records| && Settles(records[i], sessionId) && (forall j | 0 <= j < i :: !Settles(records[j], sessionId)) ::
      Decided(w, records, sessionId) == Some(ReplyOf(w, LastText(records[..i + 1], sessionId)))
    decreases |records|
  {
    if records != [] {
      var n := |records| - 1;
      FirstSettleDecides(w, records[..n], sessionId);
      assert records[..n + 1] == records;
      forall i | 0 <= i < n ensures records[..n][..i + 1] == records[..i + 1] && records[..n][i] == records[i] {}
    }
  }

  predicate TurnIs(w: Worker, t: Turn, records: seq<Record>, sessionId: Id) {
    t.sessionId == sessionId && t.lastText == LastText(records, sessionId) && t.outcome == Decided(w, records, sessionId)
  }

  lemma TurnGoesOn(w: Worker, t: Turn, records: seq<Record>, sessionId: Id, r: Record)
    requires TurnIs(w, t, records, sessionId)
    ensures TurnIs(w, if r.Event? then HandleEvent(w, t, r) else t, records + [r], sessionId)
  {
    assert (records + [r])[..|records|] == records;
  }

  lemma {:induction false} LinesTellTheTurn(w: Worker, d: Desk, lines: seq<Text>, records: seq<Record>, sessionId: Id)
    requires RunLines(w, d, lines).1 && d.turn.Some? && TurnIs(w, d.turn.value, records, sessionId)
    ensures var d' := RunLines(w, d, lines).0;
      && d'.turn.Some? && d.dispatched <= d'.dispatched
      && TurnIs(w, d'.turn.value, records + d'.dispatched[|d.dispatched|..], sessionId)
    decreases |lines|
  {
    if lines == [] {
      assert records + d.dispatched[|d.dispatched|..] == records;
    } else {
      var (d1, r) := (HandleLine(w, d, lines[0]).value, w.parse(lines[0]).value);
      HandledLine(w, d, lines[0]);
      HandledTurn(w, d, lines[0]);
      TurnGoesOn(w, d.turn.value, records, sessionId, r);
      LinesTellTheTurn(w, d1, lines[1..], records + [r], sessionId);
      OneMoreDispatched(d.dispatched, r, RunLines(w, d, lines).0.dispatched, records);
    }
  }

  lemma HandledTurn(w: Worker, d: Desk, line: Text)
    requires HandleLine(w, d, line).Some? && d.turn.Some?
    ensures var (d', r) := (HandleLine(w, d, line).value, w.parse(line).value);
      d'.turn == Some(if r.Event? then HandleEvent(w, d.turn.value, r) else d.turn.value)
  {
  }

  lemma OneMoreDispatched(before: seq<Record>, r: Record, after: seq<Record>, records: seq<Record>)
    requires before + [r] <= after
    ensures before <= after && records + after[|before|..] == records + [r] + after[|before + [r]|..]
  {
    assert after[|before|] == (before + [r])[|before|];
    assert after[|before|..] == [r] + after[|before| + 1..];
  }

  /** While the client lives, the active turn is decided by the records of the whole stream, however it was cut into chunks. */
  lemma TurnFollowsTheStream(w: Worker, pending: set<Id>, sessionId: Id, chunks: seq<Text>)
    requires CR !in Concat(chunks)
    requires var d := Desk(pending, [], Some(Turn(sessionId, None, None))); ConsumeAll(w, State([], d, None), chunks).died.None?
    ensures var s := ConsumeAll(w, State([], Desk(pending, [], Some(Turn(sessionId, None, None))), None), chunks);
      && s.desk.turn.Some?
      && s.desk.turn.value.lastText == LastText(s.desk.dispatched, sessionId)
      && s.desk.turn.value.outcome == Decided(w, s.desk.dispatched, sessionId)
  {
    var d := Desk(pending, [], Some(Turn(sessionId, None, None)));
    var s := ConsumeAll(w, State([], d, None), chunks);
    ConsumeAllAgrees(w, d, chunks);
    LinesTellTheTurn(w, d, Lines(Concat(chunks)), [], sessionId);
    assert [] + s.desk.dispatched[0..] == s.desk.dispatched;
  }

  /** A terminated client has rejected every open request, and its turn unless that was decided before. */
  lemma TerminatedAs(s: State)
    ensures var s' := Terminate(s);
      && s'.buffer == [] && s'.desk.pending == {} && s'.desk.dispatched == s.desk.dispatched && s'.died.Some?
      && (s.died.Some? ==> s'.died == s.died) && (s.died.None? ==> s'.died == Some(s.desk))
      && (s'.desk.turn.Some? <==> s.desk.turn.Some?)
      && (s.desk.turn.Some? ==>
            && s'.desk.turn.value.sessionId == s.desk.turn.value.sessionId && s'.desk.turn.value.lastText == s.desk.turn.value.lastText
            && s'.desk.turn.value.outcome == if s.desk.turn.value.outcome.Some? then s.desk.turn.value.outcome else Some(Failed))
  {
  }
}
