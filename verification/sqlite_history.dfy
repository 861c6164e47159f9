/** Runs of the SQLite store: its mirror, its chain, and the migration of a JSONL file. */
module SqliteHistory {
  import opened Wrappers
  import opened EventLog
  import opened SqliteStore
  import Jsonl = JsonlStore
  import Durable = JsonlDurability

  datatype Step =
    | Opens
    | Appends(entry: Jsonl.Entry, fails: bool)
    | Closes
    | Crashes
    /** The process dies between the commit of an append and the update of the mirror. */
    | CrashesAfterCommit(entry: Jsonl.Entry)
    /** The process dies in open, after the migration. */
    | CrashesInOpen

  function Dead(s: State): State {
    s.(memory := Memory(false, [], true))
  }

  function Next(c: Codec, s: State, step: Step): State {
    match step
    case Opens => Open(c, s).0
    case Appends(entry, fails) => Append(c, s, entry, fails).0
    case Closes => s.(memory := s.memory.(open := false))
    case Crashes => Dead(s)
    case CrashesAfterCommit(entry) => Dead(Append(c, s, entry, false).0)
    case CrashesInOpen =>
      if s.memory.open then Dead(s)
      else
        var (rows, legacy, _) := Migrate(c, s.rows, s.legacy);
        Dead(s.(rows := rows, legacy := legacy))
  }

  function RunAll(c: Codec, s: State, steps: seq<Step>): State
    decreases |steps|
  {
    if steps == [] then s else RunAll(c, Next(c, s, steps[0]), steps[1..])
  }

  /** A first start, next to a JSONL file or without one. */
  function Start(legacy: Option<Jsonl.Disk>): State {
    State([], legacy, Memory(false, [], true))
  }

  // ---- The invariant ----

  ghost predicate LegacyOk(c: Codec, d: Jsonl.Disk) {
    var recovered := Jsonl.Recover(c, d.file);
    recovered.Ok? && Durable.LogOk(c, recovered.value) && DistinctIds(recovered.value)
  }

  ghost predicate Inv(c: Codec, s: State) {
    && Durable.LogOk(c, s.rows)
    && (s.legacy.Some? ==> LegacyOk(c, s.legacy.value))
    && (s.memory.open ==> s.memory.events == s.rows)
  }

  lemma QuarantineKeepsLegacy(c: Codec, d: Jsonl.Disk)
    ensures Jsonl.Recover(c, Jsonl.Quarantine(d).file) == Jsonl.Recover(c, d.file)
  {
    Jsonl.TailAddsNoLine(d.file);
  }

  /** An empty table takes over the whole log of the JSONL file; any other table stays as it is. */
  lemma MigrationTakesOver(c: Codec, s: State)
    requires Injective(c) && Inv(c, s)
    ensures var (rows, legacy, failure) := Migrate(c, s.rows, s.legacy);
      && failure.None?
      && rows == (if s.rows == [] && s.legacy.Some? then Jsonl.Recover(c, s.legacy.value.file).value else s.rows)
      && Durable.LogOk(c, rows) && (legacy.Some? ==> LegacyOk(c, legacy.value))
  {
    if s.rows == [] && s.legacy.Some? {
      QuarantineKeepsLegacy(c, s.legacy.value);
      VerifiedLogInserts(c, Jsonl.Recover(c, s.legacy.value.file).value);
    }
  }

  lemma OpenMirrors(c: Codec, s: State)
    requires Injective(c) && Inv(c, s)
    ensures Inv(c, Next(c, s, Opens)) && s.rows <= Next(c, s, Opens).rows
    ensures !s.memory.open ==>
      Open(c, s).1.Ok? && Next(c, s, Opens).memory == Memory(true, Migrate(c, s.rows, s.legacy).0, true)
  {
    if !s.memory.open {
      MigrationTakesOver(c, s);
      VerifiedIsOrdered(c, Migrate(c, s.rows, s.legacy).0);
    }
  }

  lemma AppendMirrors(c: Codec, s: State, entry: Jsonl.Entry, fails: bool)
    requires Inv(c, s)
    ensures Inv(c, Append(c, s, entry, fails).0) && s.rows <= Append(c, s, entry, fails).0.rows
  {
    if s.memory.open && s.memory.healthy && Jsonl.Serializable(c, s.memory.events, entry) {
      AppendKeepsVerified(c, s.rows, entry.eventId, entry.recordedAt, entry.kind, entry.payload.value);
    }
  }

  lemma NextKeepsInv(c: Codec, s: State, step: Step)
    requires Injective(c) && Inv(c, s)
    ensures Inv(c, Next(c, s, step)) && s.rows <= Next(c, s, step).rows
  {
    match step
    case Opens => OpenMirrors(c, s);
    case Appends(entry, fails) => AppendMirrors(c, s, entry, fails);
    case CrashesAfterCommit(entry) => AppendMirrors(c, s, entry, false);
    case CrashesInOpen => MigrationTakesOver(c, s);
    case _ =>
  }

  lemma {:induction false} RunKeepsInv(c: Codec, s: State, steps: seq<Step>)
    requires Injective(c) && Inv(c, s)
    ensures Inv(c, RunAll(c, s, steps)) && s.rows <= RunAll(c, s, steps).rows
    decreases |steps|
  {
    if steps != [] {
      NextKeepsInv(c, s, steps[0]);
      RunKeepsInv(c, Next(c, s, steps[0]), steps[1..]);
    }
  }

  // ---- What the store promises ----

  /** In every run the list in memory is the table in order, the chain verifies, and open succeeds. */
  lemma MirrorAlwaysAgrees(c: Codec, legacy: Option<Jsonl.Disk>, steps: seq<Step>)
    requires Injective(c) && (legacy.Some? ==> LegacyOk(c, legacy.value))
    ensures var s := RunAll(c, Start(legacy), steps);
      && Verified(c, Ordered(s.rows))
      && (if s.memory.open then s.memory.events == Ordered(s.rows) else Open(c, s).1.Ok?)
  {
    var s := RunAll(c, Start(legacy), steps);
    RunKeepsInv(c, Start(legacy), steps);
    VerifiedIsOrdered(c, s.rows);
    OpenMirrors(c, s);
  }

  /** The log only grows: what was once committed is the beginning of every later list. */
  lemma CommittedForEver(c: Codec, legacy: Option<Jsonl.Disk>, steps: seq<Step>, more: seq<Step>)
    requires Injective(c) && (legacy.Some? ==> LegacyOk(c, legacy.value))
    ensures var s := RunAll(c, Start(legacy), steps); Ordered(s.rows) <= Ordered(RunAll(c, s, more).rows)
  {
    var s := RunAll(c, Start(legacy), steps);
    RunKeepsInv(c, Start(legacy), steps);
    RunKeepsInv(c, s, more);
    VerifiedIsOrdered(c, s.rows);
    VerifiedIsOrdered(c, RunAll(c, s, more).rows);
  }

  /** Two databases that open with the same last hash hold the same rows, whoever edited them and however stored. */
  lemma LastHashBindsTable(c: Codec, rows: Rows, rows': Rows)
    requires Injective(c) && Load(c, rows).Ok? && Load(c, rows').Ok?
    requires PreviousHash(Load(c, rows).value) == PreviousHash(Load(c, rows').value)
    ensures Load(c, rows) == Load(c, rows') && multiset(rows) == multiset(rows')
  {
    LastHashBindsLog(c, Ordered(rows), Ordered(rows'));
    OrderedKeepsRows(rows);
    OrderedKeepsRows(rows');
  }

  /** What the runs of a JSONL store leave behind can be taken over. */
  lemma LeftoverIsLegacy(c: Codec, steps: seq<Durable.Step>)
    requires Lossless(c) && DistinctIds(Durable.Attempted(Durable.Reach(c, steps)))
    ensures var w := Durable.Reach(c, steps);
      && LegacyOk(c, w.state.disk) && w.acked <= |w.exposed|
      && w.exposed[..w.acked] <= Jsonl.Recover(c, w.state.disk.file).value <= Durable.Attempted(w)
  {
    var w := Durable.Reach(c, steps);
    Durable.FreshIsOk(c);
    Durable.RunKeepsInv(c, Durable.Fresh(), steps);
    var log := Durable.Attempted(w);
    var n := Durable.RecoverOf(c, w.state.disk, log, w.acked);
    PrefixIsVerified(c, log, n);
    assert log[..n][..w.acked] == w.exposed[..w.acked];
  }

  lemma FirstOpenTakesOver(c: Codec, d: Jsonl.Disk)
    requires Injective(c) && LegacyOk(c, d)
    ensures var (s, result) := Open(c, Start(Some(d)));
      result.Ok? && s.memory.events == Ordered(s.rows) == Jsonl.Recover(c, d.file).value
  {
    OpenMirrors(c, Start(Some(d)));
    MigrationTakesOver(c, Start(Some(d)));
    VerifiedIsOrdered(c, Jsonl.Recover(c, d.file).value);
  }

  /** The first open next to a JSONL file, left in any state by its own runs, carries the whole log over. */
  lemma MigrationCarriesTheLog(c: Codec, steps: seq<Durable.Step>)
    requires Lossless(c) && Injective(c) && DistinctIds(Durable.Attempted(Durable.Reach(c, steps)))
    ensures var w := Durable.Reach(c, steps);
      var (s, result) := Open(c, Start(Some(w.state.disk)));
      && result.Ok? && s.memory.events == Ordered(s.rows) == Jsonl.Recover(c, w.state.disk.file).value
      && w.acked <= |w.exposed| && w.exposed[..w.acked] <= s.memory.events <= Durable.Attempted(w)
  {
    LeftoverIsLegacy(c, steps);
    FirstOpenTakesOver(c, Durable.Reach(c, steps).state.disk);
  }
}
