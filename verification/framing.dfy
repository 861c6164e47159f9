/**
 The JSONL framing of the Pi Worker's output stream. The stream arrives in chunks of any
 size; records end with a newline. `parse` is JSON.parse with the envelope check, and
 `blank` tells a text that trims to nothing.
 */
module Framing {
  import opened Wrappers
  import opened Utf8

  type Id = nat

  const MAX_LINE_BYTES: nat := 16 * 1_048_576
  const MAX_ASSISTANT_BYTES: nat := 64 * 1024
  const CR: Char := 13
  const LF: Char := 10

  /** An event of a session, the assistant's text it carries, and whether it is agent_settled. */
  datatype Record =
    | Response(requestId: Id)
    | Event(sessionId: Id, assistantText: Option<Text>, settles: bool)
    | Request

  datatype Worker = Worker(parse: Text -> Option<Record>, blank: Text -> bool)

  datatype Outcome = Replied(text: Text) | Failed

  /** The turn waits for its session to settle; its promise keeps the first outcome. */
  datatype Turn = Turn(sessionId: Id, lastText: Option<Text>, outcome: Option<Outcome>)

  /** What the records act on: the requests without a response, the records dispatched so far, and the active turn. */
  datatype Desk = Desk(pending: set<Id>, dispatched: seq<Record>, turn: Option<Turn>)

  function Settle(t: Turn, outcome: Outcome): Turn {
    if t.outcome.Some? then t else t.(outcome := Some(outcome))
  }

  function HandleEvent(w: Worker, t: Turn, e: Record): Turn
    requires e.Event?
  {
    if e.sessionId != t.sessionId then t
    else
      var t' := if e.assistantText.Some? then t.(lastText := e.assistantText) else t;
      if !e.settles then t'
      else if t'.lastText.None? || w.blank(t'.lastText.value) || ByteLength(t'.lastText.value) > MAX_ASSISTANT_BYTES then Settle(t', Failed)
      else Settle(t', Replied(t'.lastText.value))
  }

  /** One complete line; None where the client terminates the worker. */
  function HandleLine(w: Worker, d: Desk, line: Text): Option<Desk> {
    if line == [] || ByteLength(line) > MAX_LINE_BYTES then None
    else match w.parse(line)
      case None => None
      case Some(Request) => None
      case Some(Response(id)) =>
        if id !in d.pending then None
        else Some(d.(pending := d.pending - {id}, dispatched := d.dispatched + [Response(id)]))
      case Some(Event(sessionId, text, settles)) =>
        var e := Event(sessionId, text, settles);
        Some(d.(dispatched := d.dispatched + [e], turn := if d.turn.Some? then Some(HandleEvent(w, d.turn.value, e)) else None))
  }

  /** #terminate: every request and the turn are rejected. */
  function Terminated(d: Desk): Desk {
    d.(pending := {}, turn := if d.turn.Some? then Some(Settle(d.turn.value, Failed)) else None)
  }

  /** `died` is the desk as the first termination of this worker found it. */
  datatype State = State(buffer: Text, desk: Desk, died: Option<Desk>)

  function Terminate(s: State): State {
    State([], Terminated(s.desk), if s.died.Some? then s.died else Some(s.desk))
  }

  function IndexOfNewline(s: Text): (at: Option<nat>)
    ensures at.Some? ==> at.value < |s| && s[at.value] == LF && LF !in s[..at.value]
    ensures at.None? <==> LF !in s
  {
    if s == [] then None
    else if s[0] == LF then Some(0)
    else
      var rest := IndexOfNewline(s[1..]);
      if rest.None? then None
      else
        assert forall i | 0 < i < rest.value + 1 :: s[i] == s[1..][i - 1];
        Some(rest.value + 1)
  }

  /** The loop: takes the complete lines out of the buffer. */
  function TakeLines(w: Worker, s: State): State
    decreases |s.buffer|
  {
    var at := IndexOfNewline(s.buffer);
    if at.None? then s
    else
      var line := s.buffer[..at.value];
      var rest := s.(buffer := s.buffer[at.value + 1..]);
      match HandleLine(w, s.desk, line)
      case None => Terminate(rest)
      case Some(desk) => TakeLines(w, rest.(desk := desk))
  }

  function Consume(w: Worker, s: State, chunk: Text): State {
    if CR in chunk then Terminate(s)
    else
      var taken := TakeLines(w, s.(buffer := s.buffer + chunk));
      if ByteLength(taken.buffer) > MAX_LINE_BYTES then Terminate(taken) else taken
  }

  function ConsumeAll(w: Worker, s: State, chunks: seq<Text>): State {
    if chunks == [] then s else Consume(w, ConsumeAll(w, s, chunks[..|chunks| - 1]), chunks[|chunks| - 1])
  }

  class PiWorkerClient {
    const worker: Worker
    var buffer: Text
    var desk: Desk
    var died: Option<Desk>

    function View(): State
      reads this
    {
      State(buffer, desk, died)
    }

    /** A new child process, with these requests outstanding. */
    constructor (worker: Worker, desk: Desk)
      ensures this.worker == worker && View() == State([], desk, None)
    {
      this.worker, this.desk := worker, desk;
      buffer, died := [], None;
    }

    method TerminateWorker()
      modifies this
      ensures View() == Terminate(old(View()))
    {
      buffer := [];
      if died.None? { died := Some(desk); }
      desk := Terminated(desk);
    }

    method ConsumeChunk(chunk: Text)
      modifies this
      ensures View() == Consume(worker, old(View()), chunk)
    {
      if CR in chunk {
        TerminateWorker();
        return;
      }
      buffer := buffer + chunk;
      ghost var start := View();
      while true
        invariant TakeLines(worker, View()) == TakeLines(worker, start)
        decreases |buffer|
      {
        var index := IndexOfNewline(buffer);
        if index.None? { break; }
        var line := buffer[..index.value];
        buffer := buffer[index.value + 1..];
        var handled := HandleLine(worker, desk, line);
        if handled.None? {
          TerminateWorker();
          assert ByteLength(buffer) == 0;
          return;
        }
        desk := handled.value;
      }
      if ByteLength(buffer) > MAX_LINE_BYTES {
        TerminateWorker();
      }
    }
  }

  // ---- The split of a whole stream ----

  /** The lines that a newline closes, and the rest. */
  function Lines(s: Text): seq<Text>
    decreases |s|
  {
    var at := IndexOfNewline(s);
    if at.None? then [] else [s[..at.value]] + Lines(s[at.value + 1..])
  }

  function Tail(s: Text): Text
    decreases |s|
  {
    var at := IndexOfNewline(s);
    if at.None? then s else Tail(s[at.value + 1..])
  }

  function Rejoined(lines: seq<Text>, tail: Text): Text {
    if lines == [] then tail else lines[0] + [LF] + Rejoined(lines[1..], tail)
  }

  lemma {:induction false} NewlineAt(s: Text, i: nat)
    requires i < |s| && s[i] == LF && LF !in s[..i]
    ensures IndexOfNewline(s) == Some(i)
    decreases i
  {
    if i > 0 {
      assert s[0] == s[..i][0];
      assert s[1..][..i - 1] == s[..i][1..];
      NewlineAt(s[1..], i - 1);
    }
  }

  /** A newline after text without newline closes the first line. */
  lemma FirstLine(line: Text, rest: Text)
    requires LF !in line
    ensures Lines(line + [LF] + rest) == [line] + Lines(rest) && Tail(line + [LF] + rest) == Tail(rest)
  {
    var s := line + [LF] + rest;
    assert s[..|line|] == line && s[|line| + 1..] == rest;
    NewlineAt(s, |line|);
  }

  lemma CutFirstLine(s: Text) returns (line: Text, rest: Text)
    requires LF in s
    ensures LF !in line && s == line + [LF] + rest
    ensures Lines(s) == [line] + Lines(rest) && Tail(s) == Tail(rest) && |rest| < |s|
  {
    var i := IndexOfNewline(s).value;
    line, rest := s[..i], s[i + 1..];
    assert s == line + [LF] + rest;
    FirstLine(line, rest);
  }

  /** The split loses nothing, and its parts hold no newline. */
  lemma {:induction false} SplitRejoins(s: Text)
    ensures Rejoined(Lines(s), Tail(s)) == s && LF !in Tail(s) && forall line <- Lines(s) :: LF !in line
    decreases |s|
  {
    if LF in s {
      var line, rest := CutFirstLine(s);
      SplitRejoins(rest);
      assert ([line] + Lines(rest))[1..] == Lines(rest);
    }
  }

  /** More text after a: the lines of a stay, and what follows continues its tail. */
  lemma {:induction false} SplitOfSum(a: Text, b: Text)
    ensures Lines(a + b) == Lines(a) + Lines(Tail(a) + b) && Tail(a + b) == Tail(Tail(a) + b)
    decreases |a|
  {
    if LF in a {
      var line, rest := CutFirstLine(a);
      SplitOfSum(rest, b);
      Assoc(line + [LF], rest, b);
      FirstLine(line, rest + b);
      Assoc([line], Lines(rest), Lines(Tail(rest) + b));
    } else {
      NoLine(a, Lines(a + b));
    }
  }

  lemma Assoc<T>(x: seq<T>, y: seq<T>, z: seq<T>)
    ensures (x + y) + z == x + (y + z)
  {
  }

  lemma NoLine(s: Text, more: seq<Text>)
    requires LF !in s
    ensures Lines(s) + more == more && Tail(s) == s
  {
    assert Lines(s) == [];
  }

  /** Handles the lines in order up to the first that terminates the worker; tells whether none did. */
  function RunLines(w: Worker, d: Desk, lines: seq<Text>): (Desk, bool)
    decreases |lines|
  {
    if lines == [] then (d, true)
    else match HandleLine(w, d, lines[0])
      case None => (d, false)
      case Some(d') => RunLines(w, d', lines[1..])
  }

  lemma {:induction false} RunLinesOfSum(w: Worker, d: Desk, a: seq<Text>, b: seq<Text>)
    ensures RunLines(w, d, a + b) == if RunLines(w, d, a).1 then RunLines(w, RunLines(w, d, a).0, b) else RunLines(w, d, a)
    decreases |a|
  {
    if a == [] {
      assert a + b == b;
    } else {
      assert (a + b)[1..] == a[1..] + b;
      if HandleLine(w, d, a[0]).Some? {
        RunLinesOfSum(w, HandleLine(w, d, a[0]).value, a[1..], b);
      }
    }
  }

  lemma RunLinesFirst(w: Worker, d: Desk, line: Text, lines: seq<Text>)
    ensures RunLines(w, d, [line] + lines) == match HandleLine(w, d, line)
      case None => (d, false)
      case Some(d') => RunLines(w, d', lines)
  {
    assert ([line] + lines)[1..] == lines;
  }

  lemma TakeFirstLine(w: Worker, s: State, line: Text, rest: Text)
    requires LF !in line && s.buffer == line + [LF] + rest
    ensures TakeLines(w, s) == match HandleLine(w, s.desk, line)
      case None => Terminate(s)
      case Some(d) => TakeLines(w, State(rest, d, s.died))
  {
    assert s.buffer[..|line|] == line && s.buffer[|line| + 1..] == rest;
    NewlineAt(s.buffer, |line|);
  }

  /** The loop does what handling the split does. */
  lemma {:induction false} LoopHandlesTheLines(w: Worker, s: State)
    ensures var (d, ok) := RunLines(w, s.desk, Lines(s.buffer));
      TakeLines(w, s) == if ok then State(Tail(s.buffer), d, s.died) else Terminate(s.(desk := d))
    decreases |s.buffer|
  {
    if LF in s.buffer {
      var line, rest := CutFirstLine(s.buffer);
      TakeFirstLine(w, s, line, rest);
      RunLinesFirst(w, s.desk, line, Lines(rest));
      if HandleLine(w, s.desk, line).Some? {
        LoopHandlesTheLines(w, State(rest, HandleLine(w, s.desk, line).value, s.died));
      }
    } else {
      NoLine(s.buffer, []);
    }
  }

  // ---- The verdict on a stream ----

  datatype Verdict = Alive(desk: Desk, tail: Text) | Dead(desk: Desk)

  function Judge(w: Worker, d: Desk, stream: Text): Verdict {
    var (d', ok) := RunLines(w, d, Lines(stream));
    if ok && ByteLength(Tail(stream)) <= MAX_LINE_BYTES then Alive(d', Tail(stream)) else Dead(d')
  }

  /** A line that is too long already when its newline is still missing. */
  lemma LongTailKills(w: Worker, d: Desk, tail: Text, more: Text)
    requires LF !in tail && ByteLength(tail) > MAX_LINE_BYTES
    ensures Judge(w, d, tail + more) == Dead(d)
  {
    var s := tail + more;
    if LF in s {
      var i := IndexOfNewline(s).value;
      assert i >= |tail|;
      assert s[..i] == tail + s[|tail|..i];
      ByteLengthOfSum(tail, s[|tail|..i]);
      assert Lines(s)[0] == s[..i];
    } else {
      assert LF !in more;
      ByteLengthOfSum(tail, more);
    }
  }

  lemma JudgeOfSum(w: Worker, d: Desk, stream: Text, more: Text)
    ensures match Judge(w, d, stream)
      case Alive(d', tail) => Judge(w, d, stream + more) == Judge(w, d', tail + more)
      case Dead(d') => Judge(w, d, stream + more) == Dead(d')
  {
    SplitOfSum(stream, more);
    RunLinesOfSum(w, d, Lines(stream), Lines(Tail(stream) + more));
    var (d', ok) := RunLines(w, d, Lines(stream));
    if ok && ByteLength(Tail(stream)) > MAX_LINE_BYTES {
      SplitRejoins(stream);
      LongTailKills(w, d', Tail(stream), more);
    }
  }

  ghost predicate Agrees(s: State, v: Verdict) {
    match v
    case Alive(desk, tail) => s == State(tail, desk, None)
    case Dead(desk) => s.died == Some(desk)
  }

  lemma ConsumeAgrees(w: Worker, d: Desk, s: State, stream: Text, chunk: Text)
    requires CR !in chunk && Agrees(s, Judge(w, d, stream))
    ensures Agrees(Consume(w, s, chunk), Judge(w, d, stream + chunk))
  {
    JudgeOfSum(w, d, stream, chunk);
    LoopHandlesTheLines(w, s.(buffer := s.buffer + chunk));
  }

  lemma {:induction false} ConsumeAllAgrees(w: Worker, d: Desk, chunks: seq<Text>)
    requires CR !in Concat(chunks)
    ensures Agrees(ConsumeAll(w, State([], d, None), chunks), Judge(w, d, Concat(chunks)))
    decreases |chunks|
  {
    if chunks != [] {
      var (init, last) := (chunks[..|chunks| - 1], chunks[|chunks| - 1]);
      ConsumeAllAgrees(w, d, init);
      ConsumeAgrees(w, d, ConsumeAll(w, State([], d, None), init), Concat(init), last);
    }
  }

  // ---- Main results ----

  /** However a stream without CR is cut into chunks, the client dies or not alike, at the same desk; alive, it is in the same state. */
  lemma ChunkingDoesNotMatter(w: Worker, d: Desk, chunks: seq<Text>, chunks': seq<Text>)
    requires Concat(chunks) == Concat(chunks') && CR !in Concat(chunks)
    ensures var (s, s') := (ConsumeAll(w, State([], d, None), chunks), ConsumeAll(w, State([], d, None), chunks'));
      s.died == s'.died && (s.died.None? ==> s == s')
  {
    ConsumeAllAgrees(w, d, chunks);
    ConsumeAllAgrees(w, d, chunks');
  }

  lemma {:induction false} RunLinesDispatches(w: Worker, d: Desk, lines: seq<Text>)
    requires RunLines(w, d, lines).1
    ensures var records := RunLines(w, d, lines).0.dispatched;
      && |records| == |d.dispatched| + |lines| && records[..|d.dispatched|] == d.dispatched
      && forall i | 0 <= i < |lines| :: w.parse(lines[i]) == Some(records[|d.dispatched| + i])
    decreases |lines|
  {
    if lines != [] {
      var d' := HandleLine(w, d, lines[0]).value;
      RunLinesDispatches(w, d', lines[1..]);
      var records := RunLines(w, d, lines).0.dispatched;
      assert records[..|d'.dispatched|] == d'.dispatched;
      forall i | 0 <= i < |lines| ensures w.parse(lines[i]) == Some(records[|d.dispatched| + i]) {
        if i > 0 { assert lines[1..][i - 1] == lines[i]; }
        else { assert records[|d.dispatched|] == d'.dispatched[|d.dispatched|]; }
      }
    }
  }

  /** While the client lives, its records are the lines of the stream, one each, in order, and its buffer is the rest. */
  lemma RecordsAreTheLines(w: Worker, d: Desk, chunks: seq<Text>)
    requires CR !in Concat(chunks) && d.dispatched == [] && ConsumeAll(w, State([], d, None), chunks).died.None?
    ensures var (s, lines) := (ConsumeAll(w, State([], d, None), chunks), Lines(Concat(chunks)));
      && |s.desk.dispatched| == |lines|
      && (forall i | 0 <= i < |lines| :: w.parse(lines[i]) == Some(s.desk.dispatched[i]))
      && s.buffer == Tail(Concat(chunks))
  {
    ConsumeAllAgrees(w, d, chunks);
    RunLinesDispatches(w, d, Lines(Concat(chunks)));
  }

  lemma DeathStays(w: Worker, s: State, chunk: Text)
    requires s.died.Some?
    ensures Consume(w, s, chunk).died == s.died
  {
    LoopHandlesTheLines(w, s.(buffer := s.buffer + chunk));
  }

  lemma {:induction false} CrKills(w: Worker, d: Desk, chunks: seq<Text>)
    requires CR in Concat(chunks)
    ensures ConsumeAll(w, State([], d, None), chunks).died.Some?
    decreases |chunks|
  {
    if chunks != [] {
      var (init, last) := (chunks[..|chunks| - 1], chunks[|chunks| - 1]);
      if CR !in last {
        CrKills(w, d, init);
        DeathStays(w, ConsumeAll(w, State([], d, None), init), last);
      }
    }
  }

  /** Whether the client dies depends on the stream alone: on a CR, a line it refuses, or a rest that is too long. */
  lemma DiesIff(w: Worker, d: Desk, chunks: seq<Text>)
    ensures ConsumeAll(w, State([], d, None), chunks).died.Some? <==> CR in Concat(chunks) || Judge(w, d, Concat(chunks)).Dead?
  {
    if CR in Concat(chunks) {
      CrKills(w, d, chunks);
    } else {
      ConsumeAllAgrees(w, d, chunks);
    }
  }
}
