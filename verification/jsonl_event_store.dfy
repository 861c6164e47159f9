/**
 The JSONL event file: what a crash at any byte leaves of it, and what the next open
 makes of that. Bytes that were never synced may be lost from the end of the file when
 the machine stops; a process that merely dies loses none of them.
 */
module JsonlStore {
  import opened Wrappers
  import opened EventLog

  datatype Failure =
    | AlreadyOpen | NotOpen | Unhealthy | NotSerializable | WriteFailed | BadLine(line: nat) | BadLog(fault: Fault)

  /** `synced` bytes survive a power failure; `quarantined` holds the synced copies. Each crash-free open adds at most one. */
  datatype Disk = Disk(file: seq<Byte>, synced: nat, quarantined: seq<seq<Byte>>)

  datatype Memory = Memory(open: bool, events: seq<Event>, healthy: bool)

  datatype State = State(disk: Disk, memory: Memory)

  /** What append is given; no payload text when JSON cannot represent the payload. */
  datatype Entry = Entry(eventId: nat, recordedAt: int, kind: string, payload: Option<string>)

  // ---- Lines of a file ----

  function Line(c: Codec, e: Event): seq<Byte> {
    c.encode(e) + [NEWLINE]
  }

  function Flat(c: Codec, log: seq<Event>): seq<Byte> {
    if log == [] then [] else Flat(c, log[..|log| - 1]) + Line(c, log[|log| - 1])
  }

  function LastNewline(bytes: seq<Byte>): (at: int)
    ensures -1 <= at < |bytes|
    ensures at >= 0 ==> bytes[at] == NEWLINE
    ensures forall k | at < k < |bytes| :: bytes[k] != NEWLINE
  {
    if bytes == [] then -1
    else if bytes[|bytes| - 1] == NEWLINE then |bytes| - 1
    else LastNewline(bytes[..|bytes| - 1])
  }

  /** The length of the part of a file that ends with its last newline. */
  function Complete(bytes: seq<Byte>): nat {
    LastNewline(bytes) + 1
  }

  /** The lines that a newline closes. */
  function Lines(bytes: seq<Byte>): seq<seq<Byte>>
    decreases |bytes|
  {
    var end := LastNewline(bytes);
    if end < 0 then []
    else
      var start := Complete(bytes[..end]);
      Lines(bytes[..start]) + [bytes[start..end]]
  }

  function ParseLine(c: Codec, line: seq<Byte>): Option<Event> {
    var parsed := c.decode(line);
    if parsed.Some? && Acceptable(parsed.value) then parsed else None
  }

  function ParseLines(c: Codec, lines: seq<seq<Byte>>): Result<seq<Event>, Failure> {
    if lines == [] then Ok([])
    else
      var n := |lines| - 1;
      var earlier := ParseLines(c, lines[..n]);
      if earlier.Err? then earlier
      else match ParseLine(c, lines[n])
        case None => Err(BadLine(n))
        case Some(e) => Ok(earlier.value + [e])
  }

  /** The log that open reads from a file. */
  function Recover(c: Codec, file: seq<Byte>): Result<seq<Event>, Failure> {
    var parsed := ParseLines(c, Lines(file));
    if parsed.Err? then parsed
    else match Check(c, parsed.value)
      case Some(fault) => Err(BadLog(fault))
      case None => parsed
  }

  // ---- The operations ----

  function Quarantine(d: Disk): Disk {
    var complete := Complete(d.file);
    if complete == |d.file| then d
    else Disk(d.file[..complete], complete, d.quarantined + [d.file[complete..]])
  }

  function Open(c: Codec, s: State): (State, Result<(), Failure>) {
    if s.memory.open then (s, Err(AlreadyOpen))
    else
      var recovered := Recover(c, s.disk.file);
      if recovered.Err? then (s.(memory := s.memory.(healthy := true)), Err(recovered.error))
      else (State(Quarantine(s.disk), Memory(true, recovered.value, true)), Ok(()))
  }

  function EventFor(c: Codec, log: seq<Event>, entry: Entry): Event
    requires entry.payload.Some?
  {
    NextEvent(c, log, entry.eventId, entry.recordedAt, entry.kind, entry.payload.value)
  }

  predicate Serializable(c: Codec, log: seq<Event>, entry: Entry) {
    entry.payload.Some? && Acceptable(EventFor(c, log, entry))
  }

  /** `cut` is None when the line is written and synced, else how many of its bytes reach the file. */
  function Append(c: Codec, s: State, entry: Entry, cut: Option<nat>): (State, Result<Event, Failure>) {
    if !s.memory.open then (s, Err(NotOpen))
    else if !s.memory.healthy then (s, Err(Unhealthy))
    else if !Serializable(c, s.memory.events, entry) then (s, Err(NotSerializable))
    else
      var event := EventFor(c, s.memory.events, entry);
      var line := Line(c, event);
      match cut
      case None =>
        var file := s.disk.file + line;
        (State(s.disk.(file := file, synced := |file|), s.memory.(events := s.memory.events + [event])), Ok(event))
      case Some(k) =>
        (State(s.disk.(file := s.disk.file + line[..if k < |line| then k else |line|]), s.memory.(healthy := false)),
         Err(WriteFailed))
  }

  class JsonlEventStore {
    const codec: Codec
    var disk: Disk
    var events: seq<Event>
    var isOpen: bool
    var healthy: bool

    function View(): State
      reads this
    {
      State(disk, Memory(isOpen, events, healthy))
    }

    constructor (codec: Codec, disk: Disk)
      ensures this.codec == codec && View() == State(disk, Memory(false, [], true))
    {
      this.codec, this.disk := codec, disk;
      events, isOpen, healthy := [], false, true;
    }

    method OpenFile() returns (result: Result<(), Failure>)
      modifies this
      ensures (View(), result) == Open(codec, old(View()))
    {
      if isOpen { return Err(AlreadyOpen); }
      isOpen, healthy := true, true;
      var parsed := ParseCompleteLines(codec, disk.file);
      if parsed.Err? {
        isOpen := false;
        return Err(parsed.error);
      }
      var fault := Verify(codec, parsed.value);
      if fault.Some? {
        isOpen := false;
        return Err(BadLog(fault.value));
      }
      var complete := Complete(disk.file);
      if complete < |disk.file| {
        disk := disk.(quarantined := disk.quarantined + [disk.file[complete..]]);
        disk := disk.(file := disk.file[..complete], synced := complete);
      }
      events := parsed.value;
      result := Ok(());
    }

    method AppendEvent(entry: Entry, cut: Option<nat>) returns (result: Result<Event, Failure>)
      modifies this
      ensures (View(), result) == Append(codec, old(View()), entry, cut)
    {
      if !isOpen { return Err(NotOpen); }
      if !healthy { return Err(Unhealthy); }
      if entry.payload.None? { return Err(NotSerializable); }
      var event := EventFor(codec, events, entry);
      if !Acceptable(event) { return Err(NotSerializable); }
      var line := Line(codec, event);
      if cut.Some? {
        disk := disk.(file := disk.file + line[..if cut.value < |line| then cut.value else |line|]);
        healthy := false;
        return Err(WriteFailed);
      }
      disk := disk.(file := disk.file + line);
      disk := disk.(synced := |disk.file|);
      events := events + [event];
      result := Ok(event);
    }

    method Close()
      modifies this
      ensures View() == old(View()).(memory := old(View()).memory.(open := false))
    {
      isOpen := false;
    }
  }

  /** Splits at each newline from the front; the rest after the last newline is the partial tail. */
  method ParseCompleteLines(c: Codec, bytes: seq<Byte>) returns (result: Result<seq<Event>, Failure>)
    ensures result == ParseLines(c, Lines(bytes))
  {
    var lines: seq<seq<Byte>> := [];
    var start, i := 0, 0;
    while i < |bytes|
      invariant 0 <= start <= i <= |bytes|
      invariant start == Complete(bytes[..i]) && lines == Lines(bytes[..i])
    {
      assert bytes[..i + 1][..i] == bytes[..i];
      if bytes[i] == NEWLINE {
        ClosesLine(bytes[..i + 1]);
        lines := lines + [bytes[start..i]];
        start := i + 1;
      } else {
        OpenTailAddsNoLine(bytes[..i], [bytes[i]]);
        assert bytes[..i] + [bytes[i]] == bytes[..i + 1];
      }
      i := i + 1;
    }
    assert bytes[..i] == bytes;
    var events: seq<Event> := [];
    var n := 0;
    while n < |lines|
      invariant 0 <= n <= |lines| && ParseLines(c, lines[..n]) == Ok(events)
    {
      assert lines[..n + 1][..n] == lines[..n];
      var parsed := ParseLine(c, lines[n]);
      if parsed.None? {
        FirstBadLineDecides(c, lines, n);
        return Err(BadLine(n));
      }
      events := events + [parsed.value];
      n := n + 1;
    }
    assert lines[..n] == lines;
    result := Ok(events);
  }

  lemma {:induction false} FirstBadLineDecides(c: Codec, lines: seq<seq<Byte>>, n: nat)
    requires n < |lines| && ParseLines(c, lines[..n + 1]).Err?
    ensures ParseLines(c, lines) == ParseLines(c, lines[..n + 1])
    decreases |lines|
  {
    if n + 1 == |lines| {
      assert lines[..n + 1] == lines;
    } else {
      assert lines[..|lines| - 1][..n + 1] == lines[..n + 1];
      FirstBadLineDecides(c, lines[..|lines| - 1], n);
    }
  }

  lemma TailAddsNoLine(bytes: seq<Byte>)
    ensures Lines(bytes) == Lines(bytes[..Complete(bytes)])
  {
    var start := Complete(bytes);
    assert bytes[..start] + bytes[start..] == bytes;
    OpenTailAddsNoLine(bytes[..start], bytes[start..]);
  }

  /** A final newline closes one more line. */
  lemma ClosesLine(bytes: seq<Byte>)
    requires bytes != [] && bytes[|bytes| - 1] == NEWLINE
    ensures var n := |bytes| - 1; var start := Complete(bytes[..n]);
      Complete(bytes) == n + 1 && Lines(bytes) == Lines(bytes[..n]) + [bytes[start..n]]
  {
    var n := |bytes| - 1;
    var init := bytes[..n];
    var start := Complete(init);
    TailAddsNoLine(init);
    assert init[..start] == bytes[..start];
    assert LastNewline(bytes) == n;
  }

  lemma {:induction false} OpenTailAddsNoLine(bytes: seq<Byte>, tail: seq<Byte>)
    requires NEWLINE !in tail
    ensures Complete(bytes + tail) == Complete(bytes) && Lines(bytes + tail) == Lines(bytes)
    decreases |tail|
  {
    if tail == [] {
      assert bytes + tail == bytes;
    } else {
      var init := tail[..|tail| - 1];
      OpenTailAddsNoLine(bytes, init);
      assert (bytes + tail)[..|bytes + tail| - 1] == bytes + init;
      SameEndSameLines(bytes + tail, bytes + init);
    }
  }

  lemma SameEndSameLines(a: seq<Byte>, b: seq<Byte>)
    requires LastNewline(a) == LastNewline(b) && a[..Complete(a)] == b[..Complete(b)]
    ensures Lines(a) == Lines(b)
  {
    var end := LastNewline(a);
    if end >= 0 {
      var start := Complete(a[..end]);
      assert a[..end] == a[..end + 1][..end] == b[..end + 1][..end] == b[..end];
      assert a[start..end] == a[..end][start..] == b[..end][start..] == b[start..end];
      assert a[..start] == a[..end][..start] == b[..end][..start] == b[..start];
    }
  }
}
