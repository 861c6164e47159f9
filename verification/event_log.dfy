/**
 The hash chain that both event stores keep: event n carries sequence n, the hash of
 event n - 1, and the hash of its own remaining fields.
 */
module EventLog {
  import opened Wrappers

  type Byte = b: int | 0 <= b < 256

  const NEWLINE: Byte := 10
  const MAX_SAFE_INTEGER: int := 0x1F_FFFF_FFFF_FFFF

  /** `payload` is the payload's JSON text. */
  datatype Body = Body(
    sequence: int, eventId: nat, recordedAt: int, kind: string, payload: string, previousHash: Option<string>)

  datatype Event = Event(body: Body, hash: string)

  /** SHA-256 of a body's JSON text, JSON.stringify of an event, and JSON.parse of a line. */
  datatype Codec = Codec(hash: Body -> string, encode: Event -> seq<Byte>, decode: seq<Byte> -> Option<Event>)

  datatype Fault = SequenceGap(at: int) | ChainMismatch(at: int) | HashMismatch(at: int)

  /** JSON text has no raw newline, and parsing gives back what was written. */
  ghost predicate Lossless(c: Codec) {
    forall e: Event :: c.decode(c.encode(e)) == Some(e) && NEWLINE !in c.encode(e)
  }

  ghost predicate Injective(c: Codec) {
    forall b: Body, b': Body :: c.hash(b) == c.hash(b') ==> b == b'
  }

  /** What isEventRecord demands besides the shape of ids, dates and hashes. */
  predicate Acceptable(e: Event) {
    1 <= e.body.sequence <= MAX_SAFE_INTEGER && e.body.kind != ""
  }

  function PreviousHash(log: seq<Event>): Option<string> {
    if log == [] then None else Some(log[|log| - 1].hash)
  }

  predicate Linked(c: Codec, log: seq<Event>, i: nat)
    requires i < |log|
  {
    && log[i].body.sequence == i + 1
    && log[i].body.previousHash == PreviousHash(log[..i])
    && log[i].hash == c.hash(log[i].body)
  }

  predicate Verified(c: Codec, log: seq<Event>) {
    forall i | 0 <= i < |log| :: Linked(c, log, i)
  }

  lemma VerifiedUpToLast(c: Codec, log: seq<Event>)
    requires log != []
    ensures Verified(c, log) <==> Verified(c, log[..|log| - 1]) && Linked(c, log, |log| - 1)
  {
    var n := |log| - 1;
    forall i | 0 <= i < n ensures Linked(c, log[..n], i) <==> Linked(c, log, i) {
      assert log[..n][..i] == log[..i];
    }
  }

  /** The first fault that reading the log from its start finds. */
  function Check(c: Codec, log: seq<Event>): (fault: Option<Fault>)
    ensures fault.None? <==> Verified(c, log)
  {
    if log == [] then None
    else
      var n := |log| - 1;
      VerifiedUpToLast(c, log);
      var earlier := Check(c, log[..n]);
      if earlier.Some? then earlier else FaultAt(c, log[n], n + 1, PreviousHash(log[..n]))
  }

  function FaultAt(c: Codec, e: Event, expectedSequence: int, previousHash: Option<string>): Option<Fault> {
    if e.body.sequence != expectedSequence then Some(SequenceGap(e.body.sequence))
    else if e.body.previousHash != previousHash then Some(ChainMismatch(e.body.sequence))
    else if c.hash(e.body) != e.hash then Some(HashMismatch(e.body.sequence))
    else None
  }

  method Verify(c: Codec, events: seq<Event>) returns (fault: Option<Fault>)
    ensures fault == Check(c, events)
    ensures fault.None? <==> Verified(c, events)
  {
    var expectedSequence := 1;
    var previousHash: Option<string> := None;
    var i := 0;
    while i < |events|
      invariant 0 <= i <= |events| && expectedSequence == i + 1
      invariant previousHash == PreviousHash(events[..i])
      invariant Check(c, events[..i]).None?
    {
      assert events[..i + 1][..i] == events[..i];
      fault := FaultAt(c, events[i], expectedSequence, previousHash);
      if fault.Some? {
        CheckStopsAtFirst(c, events, i);
        return;
      }
      previousHash := Some(events[i].hash);
      expectedSequence := expectedSequence + 1;
      i := i + 1;
    }
    assert events[..i] == events;
    fault := None;
  }

  lemma {:induction false} CheckStopsAtFirst(c: Codec, log: seq<Event>, i: nat)
    requires i < |log| && Check(c, log[..i + 1]).Some?
    ensures Check(c, log) == Check(c, log[..i + 1])
    decreases |log|
  {
    if i + 1 == |log| {
      assert log[..i + 1] == log;
    } else {
      assert log[..|log| - 1][..i + 1] == log[..i + 1];
      CheckStopsAtFirst(c, log[..|log| - 1], i);
    }
  }

  // ---- Appending ----

  function NextBody(log: seq<Event>, eventId: nat, recordedAt: int, kind: string, payload: string): Body {
    Body(if log == [] then 1 else log[|log| - 1].body.sequence + 1, eventId, recordedAt, kind, payload, PreviousHash(log))
  }

  function NextEvent(c: Codec, log: seq<Event>, eventId: nat, recordedAt: int, kind: string, payload: string): Event {
    var body := NextBody(log, eventId, recordedAt, kind, payload);
    Event(body, c.hash(body))
  }

  lemma PrefixIsVerified(c: Codec, log: seq<Event>, n: nat)
    requires Verified(c, log) && n <= |log|
    ensures Verified(c, log[..n])
  {
    forall i | 0 <= i < n ensures Linked(c, log[..n], i) {
      assert log[..n][..i] == log[..i];
      assert Linked(c, log, i);
    }
  }

  lemma AppendKeepsVerified(c: Codec, log: seq<Event>, eventId: nat, recordedAt: int, kind: string, payload: string)
    requires Verified(c, log)
    ensures Verified(c, log + [NextEvent(c, log, eventId, recordedAt, kind, payload)])
  {
    var log' := log + [NextEvent(c, log, eventId, recordedAt, kind, payload)];
    forall i | 0 <= i < |log'| ensures Linked(c, log', i) {
      assert log'[..i] == log[..i];
      if i < |log| { assert Linked(c, log, i); }
      else if i > 0 { assert Linked(c, log, i - 1); }
      assert log[..|log|] == log;
    }
  }

  // ---- What a hash binds ----

  /** One hash fixes its position and the whole history before it. */
  lemma {:induction false} HashBindsHistory(c: Codec, a: seq<Event>, b: seq<Event>, i: nat, j: nat)
    requires Injective(c) && Verified(c, a) && Verified(c, b) && i < |a| && j < |b|
    requires a[i].hash == b[j].hash
    ensures i == j && a[..i + 1] == b[..j + 1]
    decreases i
  {
    assert Linked(c, a, i) && Linked(c, b, j);
    assert a[i].body == b[j].body;
    if i > 0 {
      HashBindsHistory(c, a, b, i - 1, j - 1);
      assert a[..i + 1] == a[..i] + [a[i]] && b[..j + 1] == b[..j] + [b[j]];
    }
  }

  /** Two verified logs with the same last hash are the same log. */
  lemma LastHashBindsLog(c: Codec, a: seq<Event>, b: seq<Event>)
    requires Injective(c) && Verified(c, a) && Verified(c, b)
    ensures PreviousHash(a) == PreviousHash(b) <==> a == b
  {
    if a != [] && b != [] && PreviousHash(a) == PreviousHash(b) {
      HashBindsHistory(c, a, b, |a| - 1, |b| - 1);
      assert a[..|a|] == a && b[..|b|] == b;
    }
  }

  // ---- Reading the list ----

  /** list(afterSequence) */
  function List(events: seq<Event>, afterSequence: int): seq<Event> {
    if events == [] then []
    else
      var n := |events| - 1;
      List(events[..n], afterSequence) + if events[n].body.sequence > afterSequence then [events[n]] else []
  }

  lemma SuffixOneMore<T>(s: seq<T>, n: nat)
    requires n < |s|
    ensures s[n..] == (if n < |s| - 1 then s[..|s| - 1][n..] else []) + [s[|s| - 1]]
  {
  }

  /** On a verified log, the filter is a suffix. */
  lemma {:induction false} ListIsSuffix(c: Codec, events: seq<Event>, afterSequence: nat)
    requires Verified(c, events)
    ensures List(events, afterSequence) == if afterSequence < |events| then events[afterSequence..] else []
    decreases |events|
  {
    if events != [] {
      var n := |events| - 1;
      VerifiedUpToLast(c, events);
      ListIsSuffix(c, events[..n], afterSequence);
      assert events[n].body.sequence == n + 1;
      if afterSequence <= n {
        SuffixOneMore(events, afterSequence);
      }
    }
  }
}
