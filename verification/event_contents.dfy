/** What both event stores keep of what they are given: each acknowledged entry, as given, at its place, for ever. */
module EventContents {
  import opened Wrappers
  import opened EventLog
  import Jsonl = JsonlStore
  import Durable = JsonlDurability
  import Sqlite = SqliteStore
  import History = SqliteHistory

  /** What a caller gives to append, apart from its position. */
  datatype Content = Content(kind: string, payload: string, eventId: nat, recordedAt: int)

  function ContentOf(e: Event): Content {
    Content(e.body.kind, e.body.payload, e.body.eventId, e.body.recordedAt)
  }

  predicate Gives(entry: Jsonl.Entry, content: Content) {
    && entry.payload == Some(content.payload) && entry.kind == content.kind
    && entry.eventId == content.eventId && entry.recordedAt == content.recordedAt
  }

  /** The entry can be stored as the next one after this log. */
  predicate Storable(log: seq<Event>, entry: Jsonl.Entry) {
    entry.payload.Some? && entry.kind != "" && |log| < 9_007_199_254_740_991
  }

  lemma NextSequence(c: Codec, log: seq<Event>, entry: Jsonl.Entry)
    requires Verified(c, log) && entry.payload.Some?
    ensures var e := Jsonl.EventFor(c, log, entry);
      && Gives(entry, ContentOf(e)) && e.body.sequence == |log| + 1
      && e.body.previousHash == (if log == [] then None else Some(log[|log| - 1].hash)) && e.hash == c.hash(e.body)
    ensures Jsonl.Serializable(c, log, entry) <==> Storable(log, entry)
  {
    if log != [] { assert Linked(c, log, |log| - 1); }
  }

  /** The log holds these contents at these places, one after the other. */
  ghost predicate HoldsAt(log: seq<Event>, places: seq<nat>, contents: seq<Content>) {
    && |places| == |contents|
    && (forall k | 0 <= k < |places| :: places[k] < |log| && ContentOf(log[places[k]]) == contents[k])
    && (forall k, l | 0 <= k < l < |places| :: places[k] < places[l])
  }

  /** The log holds these contents in this order, next to others maybe. */
  ghost predicate Keeps(log: seq<Event>, contents: seq<Content>) {
    exists places: seq<nat> :: HoldsAt(log, places, contents)
  }

  lemma HoldsOneMore(log: seq<Event>, places: seq<nat>, contents: seq<Content>, e: Event)
    requires HoldsAt(log, places, contents)
    ensures HoldsAt(log + [e], places + [|log|], contents + [ContentOf(e)])
  {
  }

  lemma HoldsInPrefixOf(log: seq<Event>, log': seq<Event>, n: nat, places: seq<nat>, contents: seq<Content>)
    requires n <= |log| && HoldsAt(log[..n], places, contents) && log[..n] <= log'
    ensures HoldsAt(log', places, contents)
  {
  }

  /** Each event is numbered from 1 on, points to the one before, carries its own hash, and has a type. */
  ghost predicate IsWholeChain(c: Codec, log: seq<Event>) {
    forall i | 0 <= i < |log| :: IsInPlace(c, log, i)
  }

  ghost predicate IsInPlace(c: Codec, log: seq<Event>, i: nat)
    requires i < |log|
  {
    && log[i].body.sequence == i + 1 <= 9_007_199_254_740_991 && log[i].body.kind != ""
    && log[i].body.previousHash == (if i == 0 then None else Some(log[i - 1].hash))
    && log[i].hash == c.hash(log[i].body)
  }

  lemma InPlaceIff(c: Codec, log: seq<Event>, i: nat)
    requires i < |log|
    ensures IsInPlace(c, log, i) <==> Linked(c, log, i) && Acceptable(log[i])
  {
  }

  lemma ChainIff(c: Codec, log: seq<Event>)
    ensures IsWholeChain(c, log) <==> Verified(c, log) && forall e <- log :: Acceptable(e)
  {
    forall i | 0 <= i < |log| ensures IsInPlace(c, log, i) <==> Linked(c, log, i) && Acceptable(log[i]) { InPlaceIff(c, log, i); }
    forall i | 0 <= i < |log| ensures log[i] in log {}
  }

  // ---- Opening whatever is there ----

  /** The lines are the events' texts, one each. */
  ghost predicate LinesAre(c: Codec, lines: seq<seq<Byte>>, log: seq<Event>) {
    |lines| == |log| && forall i | 0 <= i < |lines| :: c.decode(lines[i]) == Some(log[i])
  }

  lemma {:induction false} ParsedIff(c: Codec, lines: seq<seq<Byte>>, log: seq<Event>)
    ensures Jsonl.ParseLines(c, lines) == Ok(log) <==> LinesAre(c, lines, log) && forall e <- log :: Acceptable(e)
    decreases |lines|
  {
    if lines != [] {
      var n := |lines| - 1;
      if log != [] {
        var m := |log| - 1;
        ParsedIff(c, lines[..n], log[..m]);
        assert log == log[..m] + [log[m]];
        assert forall e <- log :: e in log[..m] || e == log[m];
        assert forall e <- log[..m] :: e in log;
      }
    }
  }

  /** For any file at all, open serves a log exactly when the closed lines are the texts of a whole chain, and then serves just
      that; when it throws, no byte has changed. */
  lemma JsonlOpensIff(c: Codec, d: Jsonl.Disk, log: seq<Event>)
    ensures var (s, r) := Jsonl.Open(c, Jsonl.State(d, Jsonl.Memory(false, [], true)));
      && (r.Ok? && s.memory.events == log <==> LinesAre(c, Jsonl.Lines(d.file), log) && IsWholeChain(c, log))
      && (r.Ok? ==> s.memory.open && s.memory.healthy)
      && (r.Err? ==> s.disk == d && !s.memory.open)
  {
    ParsedIff(c, Jsonl.Lines(d.file), log);
    ChainIff(c, log);
  }

  /** For any table at all, open serves the rows in the order of their numbers exactly when they are a whole chain. */
  lemma SqliteOpensIff(c: Codec, rows: Sqlite.Rows)
    requires rows != []
    ensures var (s, r) := Sqlite.Open(c, Sqlite.State(rows, None, Sqlite.Memory(false, [], true)));
      && (r.Ok? <==> IsWholeChain(c, Sqlite.Ordered(rows)))
      && (r.Ok? ==> s.memory == Sqlite.Memory(true, Sqlite.Ordered(rows), true))
      && (r.Err? ==> !s.memory.open) && s.rows == rows
  {
    ChainIff(c, Sqlite.Ordered(rows));
  }

  // ---- The JSONL store ----

  lemma JsonlLogIsVerified(c: Codec, w: Durable.World)
    requires Durable.Inv(c, w) && w.state.memory.open
    ensures w.state.memory.events == w.exposed && Verified(c, w.exposed)
  {
    PrefixIsVerified(c, Durable.Attempted(w), |w.exposed|);
    assert Durable.Attempted(w)[..|w.exposed|] == w.exposed;
  }

  lemma JsonlReachIsOk(c: Codec, steps: seq<Durable.Step>)
    requires Lossless(c)
    ensures Durable.Inv(c, Durable.Reach(c, steps))
  {
    Durable.FreshIsOk(c);
    Durable.RunKeepsInv(c, Durable.Fresh(), steps);
  }

  /** In every reachable state: an append whose write succeeds returns exactly when the store is open and healthy and the entry
      can be stored. The event it returns carries what the caller gave, under the next number, and is the last of the log. */
  lemma JsonlAppendReturnsIff(c: Codec, steps: seq<Durable.Step>, entry: Jsonl.Entry)
    requires Lossless(c)
    ensures var w := Durable.Reach(c, steps);
      var ((s, r), m) := (Jsonl.Append(c, w.state, entry, None), w.state.memory);
      && (r.Ok? <==> m.open && m.healthy && Storable(m.events, entry))
      && (r.Ok? ==>
            && Gives(entry, ContentOf(r.value)) && r.value.body.sequence == |m.events| + 1
            && s.memory == m.(events := m.events + [r.value])
            && s.disk.file == w.state.disk.file + Jsonl.Line(c, r.value) && s.disk.synced == |s.disk.file|
            && s.disk.quarantined == w.state.disk.quarantined)
      && (r.Err? ==> s == w.state)
  {
    var w := Durable.Reach(c, steps);
    if w.state.memory.open && entry.payload.Some? {
      JsonlReachIsOk(c, steps);
      JsonlLogIsVerified(c, w);
      NextSequence(c, w.exposed, entry);
    }
  }

  /** A write that fails is never acknowledged, leaves the list as it was, and ends appending until the next open. */
  lemma JsonlFailedWrite(c: Codec, s: Jsonl.State, entry: Jsonl.Entry, cut: nat, other: Jsonl.Entry, cut': Option<nat>)
    ensures var (s', r) := Jsonl.Append(c, s, entry, Some(cut));
      && r.Err? && s'.memory.events == s.memory.events && s.disk.file <= s'.disk.file
      && (r.error == Jsonl.WriteFailed ==> Jsonl.Append(c, s', other, cut').1 == Err(Jsonl.Unhealthy))
  {
  }

  /** The entries that a run acknowledges, in order, as their callers gave them. */
  function JsonlLedger(c: Codec, w: Durable.World, steps: seq<Durable.Step>): seq<Content>
    decreases |steps|
  {
    if steps == [] then []
    else JsonlReceipt(c, w, steps[0]) + JsonlLedger(c, Durable.Next(c, w, steps[0]), steps[1..])
  }

  function JsonlReceipt(c: Codec, w: Durable.World, s: Durable.Step): seq<Content> {
    if s.Appends? && s.entry.payload.Some? && Jsonl.Append(c, w.state, s.entry, s.cut).1.Ok?
    then [Content(s.entry.kind, s.entry.payload.value, s.entry.eventId, s.entry.recordedAt)] else []
  }

  /** The acknowledged events hold these contents. */
  ghost predicate AckedHold(w: Durable.World, places: seq<nat>, contents: seq<Content>) {
    w.acked <= |w.exposed| && HoldsAt(w.exposed[..w.acked], places, contents)
  }

  lemma LedgerOneMore(c: Codec, w: Durable.World, steps: seq<Durable.Step>, ledger: seq<Content>)
    requires steps != []
    ensures ledger + JsonlLedger(c, w, steps)
      == ledger + JsonlReceipt(c, w, steps[0]) + JsonlLedger(c, Durable.Next(c, w, steps[0]), steps[1..])
  {
  }

  lemma JsonlReceiptIsKept(c: Codec, w: Durable.World, s: Durable.Step, places: seq<nat>, ledger: seq<Content>) returns (places': seq<nat>)
    requires Lossless(c) && Durable.Inv(c, w) && AckedHold(w, places, ledger)
    ensures AckedHold(Durable.Next(c, w, s), places', ledger + JsonlReceipt(c, w, s))
  {
    var w' := Durable.Next(c, w, s);
    Durable.NextKeepsAcknowledged(c, w, s);
    places' := places;
    if JsonlReceipt(c, w, s) == [] {
      HoldsInPrefixOf(w.exposed, w'.exposed[..w'.acked], w.acked, places, ledger);
    } else {
      JsonlLogIsVerified(c, w);
      NextSequence(c, w.exposed, s.entry);
      var e := Jsonl.EventFor(c, w.exposed, s.entry);
      HoldsInPrefixOf(w.exposed, w.exposed, w.acked, places, ledger);
      HoldsOneMore(w.exposed, places, ledger, e);
      places' := places + [|w.exposed|];
      assert w'.exposed[..w'.acked] == w.exposed + [e];
    }
  }

  lemma {:induction false} JsonlRunKeeps(c: Codec, w: Durable.World, steps: seq<Durable.Step>, places: seq<nat>, ledger: seq<Content>)
    returns (places': seq<nat>)
    requires Lossless(c) && Durable.Inv(c, w) && AckedHold(w, places, ledger)
    ensures AckedHold(Durable.RunAll(c, w, steps), places', ledger + JsonlLedger(c, w, steps))
    decreases |steps|
  {
    places' := places;
    if steps == [] {
      assert ledger + JsonlLedger(c, w, steps) == ledger;
    } else {
      places' := JsonlReceiptIsKept(c, w, steps[0], places, ledger);
      Durable.NextKeepsInv(c, w, steps[0]);
      LedgerOneMore(c, w, steps, ledger);
      places' := JsonlRunKeeps(c, Durable.Next(c, w, steps[0]), steps[1..], places', ledger + JsonlReceipt(c, w, steps[0]));
    }
  }

  lemma AckedBeginsLater(c: Codec, w: Durable.World, more: seq<Durable.Step>)
    requires Lossless(c) && Durable.Inv(c, w)
    ensures var w' := Durable.RunAll(c, w, more);
      && w.acked <= |w.exposed| && w.exposed[..w.acked] <= w'.exposed
      && Jsonl.Recover(c, w'.state.disk.file).Ok? && w.exposed[..w.acked] <= Jsonl.Recover(c, w'.state.disk.file).value
  {
    Durable.RunKeepsInv(c, w, more);
    var w' := Durable.RunAll(c, w, more);
    var log := Durable.Attempted(w');
    var n := Durable.RecoverOf(c, w'.state.disk, log, w'.acked);
    assert log[..n][..w.acked] == w'.exposed[..w.acked];
  }

  lemma AckedIsKept(c: Codec, w: Durable.World, more: seq<Durable.Step>, places: seq<nat>, ledger: seq<Content>)
    requires Lossless(c) && Durable.Inv(c, w) && AckedHold(w, places, ledger)
    ensures var w' := Durable.RunAll(c, w, more);
      && Keeps(w'.exposed, ledger)
      && Jsonl.Recover(c, w'.state.disk.file).Ok? && Keeps(Jsonl.Recover(c, w'.state.disk.file).value, ledger)
  {
    var w' := Durable.RunAll(c, w, more);
    AckedBeginsLater(c, w, more);
    HoldsInPrefixOf(w.exposed, w'.exposed, w.acked, places, ledger);
    HoldsInPrefixOf(w.exposed, Jsonl.Recover(c, w'.state.disk.file).value, w.acked, places, ledger);
  }

  /** Every entry ever acknowledged, with the contents its caller gave and in this order, is in every later log, whatever
      failures, crashes and reopenings follow; and in what the next open recovers from the file. */
  lemma JsonlEntriesAreKept(c: Codec, steps: seq<Durable.Step>, more: seq<Durable.Step>)
    requires Lossless(c)
    ensures var (ledger, w) := (JsonlLedger(c, Durable.Fresh(), steps), Durable.RunAll(c, Durable.Reach(c, steps), more));
      && Keeps(w.exposed, ledger)
      && Jsonl.Recover(c, w.state.disk.file).Ok? && Keeps(Jsonl.Recover(c, w.state.disk.file).value, ledger)
  {
    var w := Durable.Reach(c, steps);
    Durable.FreshIsOk(c);
    JsonlReachIsOk(c, steps);
    var places := JsonlRunKeeps(c, Durable.Fresh(), steps, [], []);
    assert [] + JsonlLedger(c, Durable.Fresh(), steps) == JsonlLedger(c, Durable.Fresh(), steps);
    AckedIsKept(c, w, more, places, JsonlLedger(c, Durable.Fresh(), steps));
  }

  // ---- The SQLite store ----

  lemma SqliteReachIsOk(c: Codec, legacy: Option<Jsonl.Disk>, steps: seq<History.Step>)
    requires Injective(c) && (legacy.Some? ==> History.LegacyOk(c, legacy.value))
    ensures History.Inv(c, History.RunAll(c, History.Start(legacy), steps))
  {
    History.RunKeepsInv(c, History.Start(legacy), steps);
  }

  /** The entry's id is not in the table yet. Its sequence and its hash never are. */
  predicate NewId(rows: Sqlite.Rows, entry: Jsonl.Entry) {
    forall row <- rows :: row.body.eventId != entry.eventId
  }

  lemma ConflictIsById(c: Codec, rows: Sqlite.Rows, entry: Jsonl.Entry)
    requires Injective(c) && Verified(c, rows) && entry.payload.Some?
    ensures Sqlite.Conflicts(rows, Jsonl.EventFor(c, rows, entry)) <==> !NewId(rows, entry)
  {
    var e := Jsonl.EventFor(c, rows, entry);
    NextSequence(c, rows, entry);
    forall row <- rows ensures Sqlite.Clash(row, e) <==> row.body.eventId == entry.eventId {
      var i :| 0 <= i < |rows| && rows[i] == row;
      assert Linked(c, rows, i);
    }
  }

  /** The same of the SQLite store; there the entry's id must be new as well. */
  lemma SqliteAppendReturnsIff(c: Codec, legacy: Option<Jsonl.Disk>, steps: seq<History.Step>, entry: Jsonl.Entry, fails: bool)
    requires Injective(c) && (legacy.Some? ==> History.LegacyOk(c, legacy.value))
    ensures var s := History.RunAll(c, History.Start(legacy), steps);
      var ((s', r), m) := (Sqlite.Append(c, s, entry, fails), s.memory);
      && (r.Ok? <==> m.open && m.healthy && Storable(m.events, entry) && NewId(s.rows, entry) && !fails)
      && (r.Ok? ==>
            && Gives(entry, ContentOf(r.value)) && r.value.body.sequence == |m.events| + 1
            && s' == s.(rows := s.rows + [r.value], memory := m.(events := m.events + [r.value])))
      && (r.Err? ==> s'.rows == s.rows && s'.memory.events == m.events && s'.memory.open == m.open && s'.legacy == s.legacy)
      && (r.Err? ==> s'.memory.healthy == (m.healthy && !(m.open && Storable(m.events, entry))))
  {
    var s := History.RunAll(c, History.Start(legacy), steps);
    SqliteReachIsOk(c, legacy, steps);
    if s.memory.open && entry.payload.Some? {
      NextSequence(c, s.rows, entry);
      ConflictIsById(c, s.rows, entry);
    }
  }

  function SqliteLedger(c: Codec, s: Sqlite.State, steps: seq<History.Step>): seq<Content>
    decreases |steps|
  {
    if steps == [] then []
    else SqliteReceipt(c, s, steps[0]) + SqliteLedger(c, History.Next(c, s, steps[0]), steps[1..])
  }

  function SqliteReceipt(c: Codec, s: Sqlite.State, step: History.Step): seq<Content> {
    if step.Appends? && step.entry.payload.Some? && Sqlite.Append(c, s, step.entry, step.fails).1.Ok?
    then [Content(step.entry.kind, step.entry.payload.value, step.entry.eventId, step.entry.recordedAt)] else []
  }

  lemma SqliteReceiptIsKept(c: Codec, s: Sqlite.State, step: History.Step, places: seq<nat>, ledger: seq<Content>)
    returns (places': seq<nat>)
    requires Injective(c) && History.Inv(c, s) && HoldsAt(s.rows, places, ledger)
    ensures HoldsAt(History.Next(c, s, step).rows, places', ledger + SqliteReceipt(c, s, step))
  {
    History.NextKeepsInv(c, s, step);
    places' := places;
    if SqliteReceipt(c, s, step) == [] {
      assert s.rows[..|s.rows|] == s.rows;
      HoldsInPrefixOf(s.rows, History.Next(c, s, step).rows, |s.rows|, places, ledger);
      assert ledger + [] == ledger;
    } else {
      NextSequence(c, s.rows, step.entry);
      HoldsOneMore(s.rows, places, ledger, Jsonl.EventFor(c, s.rows, step.entry));
      places' := places + [|s.rows|];
    }
  }

  lemma {:induction false} SqliteRunKeeps(c: Codec, s: Sqlite.State, steps: seq<History.Step>, places: seq<nat>, ledger: seq<Content>)
    returns (places': seq<nat>)
    requires Injective(c) && History.Inv(c, s) && HoldsAt(s.rows, places, ledger)
    ensures HoldsAt(History.RunAll(c, s, steps).rows, places', ledger + SqliteLedger(c, s, steps))
    decreases |steps|
  {
    places' := places;
    if steps == [] {
      assert ledger + SqliteLedger(c, s, steps) == ledger;
    } else {
      var receipt := SqliteReceipt(c, s, steps[0]);
      places' := SqliteReceiptIsKept(c, s, steps[0], places, ledger);
      History.NextKeepsInv(c, s, steps[0]);
      places' := SqliteRunKeeps(c, History.Next(c, s, steps[0]), steps[1..], places', ledger + receipt);
      assert ledger + SqliteLedger(c, s, steps) == ledger + receipt + SqliteLedger(c, History.Next(c, s, steps[0]), steps[1..]);
    }
  }

  /** Every entry ever acknowledged is in every later table, with the contents its caller gave and in this order. */
  lemma SqliteEntriesAreKept(c: Codec, legacy: Option<Jsonl.Disk>, steps: seq<History.Step>, more: seq<History.Step>)
    requires Injective(c) && (legacy.Some? ==> History.LegacyOk(c, legacy.value))
    ensures var start := History.Start(legacy);
      Keeps(Sqlite.Ordered(History.RunAll(c, History.RunAll(c, start, steps), more).rows), SqliteLedger(c, start, steps))
  {
    var start := History.Start(legacy);
    var s := History.RunAll(c, start, steps);
    var places := SqliteRunKeeps(c, start, steps, [], []);
    assert [] + SqliteLedger(c, start, steps) == SqliteLedger(c, start, steps);
    SqliteReachIsOk(c, legacy, steps);
    History.RunKeepsInv(c, s, more);
    var rows := History.RunAll(c, s, more).rows;
    Sqlite.VerifiedIsOrdered(c, rows);
    assert s.rows[..|s.rows|] == s.rows;
    HoldsInPrefixOf(s.rows, rows, |s.rows|, places, SqliteLedger(c, start, steps));
  }
}
