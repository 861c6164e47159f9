/**
 The SQLite event store: a table of events keyed by sequence, with unique event ids and
 hashes, and its mirror in memory. A transaction commits whole or not at all.
 */
module SqliteStore {
  import opened Wrappers
  import opened EventLog
  import Jsonl = JsonlStore

  /** The rows of the table, in whatever order they are stored. */
  type Rows = seq<Event>

  datatype Failure =
    | AlreadyOpen | NotOpen | Unhealthy | NotSerializable | WriteFailed | Constraint
    | BadRow | BadLog(fault: Fault) | Legacy(failure: Jsonl.Failure)

  datatype Memory = Memory(open: bool, events: seq<Event>, healthy: bool)

  /** `legacy` is the JSONL file of the earlier version, when there is one. */
  datatype State = State(rows: Rows, legacy: Option<Jsonl.Disk>, memory: Memory)

  // ---- SELECT … ORDER BY sequence ----

  function Place(sorted: seq<Event>, e: Event): seq<Event> {
    if sorted == [] || sorted[|sorted| - 1].body.sequence <= e.body.sequence then sorted + [e]
    else Place(sorted[..|sorted| - 1], e) + [sorted[|sorted| - 1]]
  }

  function Ordered(rows: Rows): seq<Event> {
    if rows == [] then [] else Place(Ordered(rows[..|rows| - 1]), rows[|rows| - 1])
  }

  // ---- Inserting ----

  /** The primary key is the sequence; event ids and hashes are unique. */
  predicate Clash(row: Event, e: Event) {
    row.body.sequence == e.body.sequence || row.body.eventId == e.body.eventId || row.hash == e.hash
  }

  predicate Conflicts(rows: Rows, e: Event) {
    exists row <- rows :: Clash(row, e)
  }

  function Insert(rows: Rows, e: Event): Option<Rows> {
    if Conflicts(rows, e) then None else Some(rows + [e])
  }

  function InsertAll(rows: Rows, events: seq<Event>): Option<Rows> {
    if events == [] then Some(rows)
    else
      var n := |events| - 1;
      var before := InsertAll(rows, events[..n]);
      if before.None? then None else Insert(before.value, events[n])
  }

  // ---- The operations ----

  /** The new table, the legacy file after it was opened, and why open must throw, if it must. */
  function Migrate(c: Codec, rows: Rows, legacy: Option<Jsonl.Disk>): (Rows, Option<Jsonl.Disk>, Option<Failure>) {
    if rows != [] || legacy.None? then (rows, legacy, None)
    else
      var (state, result) := Jsonl.Open(c, Jsonl.State(legacy.value, Jsonl.Memory(false, [], true)));
      var legacy' := Some(state.disk);
      var events := state.memory.events;
      if result.Err? then (rows, legacy', Some(Legacy(result.error)))
      else if events == [] then (rows, legacy', None)
      else if Check(c, events).Some? then (rows, legacy', Some(BadLog(Check(c, events).value)))
      else match InsertAll(rows, events)
        case None => (rows, legacy', Some(Constraint))
        case Some(rows') => (rows', legacy', None)
  }

  function Load(c: Codec, rows: Rows): Result<seq<Event>, Failure> {
    var events := Ordered(rows);
    if exists e <- events :: !Acceptable(e) then Err(BadRow)
    else match Check(c, events)
      case Some(fault) => Err(BadLog(fault))
      case None => Ok(events)
  }

  function Open(c: Codec, s: State): (State, Result<(), Failure>) {
    if s.memory.open then (s, Err(AlreadyOpen))
    else
      var (rows, legacy, failure) := Migrate(c, s.rows, s.legacy);
      var closed := State(rows, legacy, s.memory.(healthy := true));
      if failure.Some? then (closed, Err(failure.value))
      else match Load(c, rows)
        case Err(error) => (closed, Err(error))
        case Ok(events) => (State(rows, legacy, Memory(true, events, true)), Ok(()))
  }

  /** `fails`: the transaction hits an I/O error and is rolled back. */
  function Append(c: Codec, s: State, entry: Jsonl.Entry, fails: bool): (State, Result<Event, Failure>) {
    if !s.memory.open then (s, Err(NotOpen))
    else if !s.memory.healthy then (s, Err(Unhealthy))
    else if !Jsonl.Serializable(c, s.memory.events, entry) then (s, Err(NotSerializable))
    else
      var event := Jsonl.EventFor(c, s.memory.events, entry);
      if fails || Conflicts(s.rows, event) then (s.(memory := s.memory.(healthy := false)), Err(WriteFailed))
      else
        (s.(rows := s.rows + [event], memory := s.memory.(events := s.memory.events + [event])),
         Ok(event))
  }

  class SqliteEventStore {
    const codec: Codec
    var rows: Rows
    var legacy: Option<Jsonl.Disk>
    var events: seq<Event>
    var isOpen: bool
    var healthy: bool

    function View(): State
      reads this
    {
      State(rows, legacy, Memory(isOpen, events, healthy))
    }

    constructor (codec: Codec, rows: Rows, legacy: Option<Jsonl.Disk>)
      ensures this.codec == codec && View() == State(rows, legacy, Memory(false, [], true))
    {
      this.codec, this.rows, this.legacy := codec, rows, legacy;
      events, isOpen, healthy := [], false, true;
    }

    method OpenDatabase() returns (result: Result<(), Failure>)
      modifies this
      ensures (View(), result) == Open(codec, old(View()))
    {
      if isOpen { return Err(AlreadyOpen); }
      healthy := true;
      var failure := MigrateLegacyJsonlIfNeeded();
      if failure.Some? { return Err(failure.value); }
      var loaded := Ordered(rows);
      if exists e <- loaded :: !Acceptable(e) { return Err(BadRow); }
      var fault := Verify(codec, loaded);
      if fault.Some? { return Err(BadLog(fault.value)); }
      events, isOpen := loaded, true;
      result := Ok(());
    }

    method MigrateLegacyJsonlIfNeeded() returns (failure: Option<Failure>)
      modifies this`rows, this`legacy
      ensures (rows, legacy, failure) == Migrate(codec, old(rows), old(legacy))
    {
      if rows != [] || legacy.None? { return None; }
      var store := new Jsonl.JsonlEventStore(codec, legacy.value);
      var opening := store.OpenFile();
      var found := store.disk;
      legacy := Some(found);
      if opening.Err? { return Some(Legacy(opening.error)); }
      var migrated := store.events;
      store.Close();
      if migrated == [] { return None; }
      var fault := Verify(codec, migrated);
      if fault.Some? { return Some(BadLog(fault.value)); }
      var before := rows;
      var n := 0;
      while n < |migrated|
        invariant legacy == Some(found)
        invariant 0 <= n <= |migrated| && InsertAll(before, migrated[..n]) == Some(rows)
      {
        assert migrated[..n + 1][..n] == migrated[..n];
        if Conflicts(rows, migrated[n]) {
          rows := before;
          ConflictDecides(before, migrated, n);
          return Some(Constraint);
        }
        rows := rows + [migrated[n]];
        n := n + 1;
      }
      assert migrated[..n] == migrated;
      assert InsertAll(before, migrated) == Some(rows);
      failure := None;
    }

    method AppendEvent(entry: Jsonl.Entry, fails: bool) returns (result: Result<Event, Failure>)
      modifies this
      ensures (View(), result) == Append(codec, old(View()), entry, fails)
    {
      if !isOpen { return Err(NotOpen); }
      if !healthy { return Err(Unhealthy); }
      if entry.payload.None? { return Err(NotSerializable); }
      var event := Jsonl.EventFor(codec, events, entry);
      if !Acceptable(event) { return Err(NotSerializable); }
      if fails || Conflicts(rows, event) {
        healthy := false;
        return Err(WriteFailed);
      }
      rows := rows + [event];
      events := events + [event];
      result := Ok(event);
    }
  }

  lemma {:induction false} ConflictDecides(rows: Rows, events: seq<Event>, n: nat)
    requires n < |events| && InsertAll(rows, events[..n + 1]).None?
    ensures InsertAll(rows, events).None?
    decreases |events|
  {
    if n + 1 == |events| {
      assert events[..n + 1] == events;
    } else {
      assert events[..|events| - 1][..n + 1] == events[..n + 1];
      ConflictDecides(rows, events[..|events| - 1], n);
    }
  }

  // ---- Ordering ----

  lemma {:induction false} PlaceKeepsRows(sorted: seq<Event>, e: Event)
    ensures multiset(Place(sorted, e)) == multiset(sorted) + multiset{e}
    decreases |sorted|
  {
    if sorted != [] {
      assert sorted == sorted[..|sorted| - 1] + [sorted[|sorted| - 1]];
      PlaceKeepsRows(sorted[..|sorted| - 1], e);
    }
  }

  /** Ordering neither loses, adds nor changes a row. */
  lemma {:induction false} OrderedKeepsRows(rows: Rows)
    ensures multiset(Ordered(rows)) == multiset(rows)
    decreases |rows|
  {
    if rows != [] {
      assert rows == rows[..|rows| - 1] + [rows[|rows| - 1]];
      OrderedKeepsRows(rows[..|rows| - 1]);
      PlaceKeepsRows(Ordered(rows[..|rows| - 1]), rows[|rows| - 1]);
    }
  }

  /** The rows of a verified log are in order already. */
  lemma {:induction false} VerifiedIsOrdered(c: Codec, log: seq<Event>)
    requires Verified(c, log)
    ensures Ordered(log) == log
    decreases |log|
  {
    if log != [] {
      var n := |log| - 1;
      VerifiedUpToLast(c, log);
      VerifiedIsOrdered(c, log[..n]);
      assert Linked(c, log, n);
      if n > 0 { assert Linked(c, log, n - 1); }
      assert log[..n] + [log[n]] == log;
    }
  }

  // ---- Migration ----

  /** A verified log with distinct event ids goes into an empty table without a clash, whole. */
  lemma {:induction false} VerifiedLogInserts(c: Codec, log: seq<Event>)
    requires Injective(c) && Verified(c, log)
    ensures InsertAll([], log).Some? <==> DistinctIds(log)
    ensures InsertAll([], log).Some? ==> InsertAll([], log).value == log
    decreases |log|
  {
    if log != [] {
      var n := |log| - 1;
      VerifiedUpToLast(c, log);
      VerifiedLogInserts(c, log[..n]);
      ClashIsById(c, log);
      assert log[..n] + [log[n]] == log;
    }
  }

  lemma ClashIsById(c: Codec, log: seq<Event>)
    requires Injective(c) && Verified(c, log) && log != []
    ensures var n := |log| - 1;
      Conflicts(log[..n], log[n]) <==> exists i | 0 <= i < n :: log[i].body.eventId == log[n].body.eventId
  {
    var n := |log| - 1;
    forall i | 0 <= i < n ensures Clash(log[i], log[n]) <==> log[i].body.eventId == log[n].body.eventId {
      assert Linked(c, log, i) && Linked(c, log, n);
    }
    forall i | 0 <= i < n ensures log[i] in log[..n] {
      assert log[..n][i] == log[i];
    }
  }

  predicate DistinctIds(log: seq<Event>) {
    forall i, j | 0 <= i < j < |log| :: log[i].body.eventId != log[j].body.eventId
  }
}
