/** Runs of the JSONL store: appends, failed writes, closings, crashes at any byte and reopenings. */
module JsonlDurability {
  import opened Wrappers
  import opened EventLog
  import opened JsonlStore

  // ---- What is left of a cut file ----

  function Encodings(c: Codec, log: seq<Event>): seq<seq<Byte>> {
    if log == [] then [] else Encodings(c, log[..|log| - 1]) + [c.encode(log[|log| - 1])]
  }

  lemma {:induction false} FlatHasItsLines(c: Codec, log: seq<Event>)
    requires Lossless(c)
    ensures Complete(Flat(c, log)) == |Flat(c, log)| && Lines(Flat(c, log)) == Encodings(c, log)
    decreases |log|
  {
    if log != [] {
      var init, e := log[..|log| - 1], log[|log| - 1];
      var flat := Flat(c, init);
      FlatHasItsLines(c, init);
      OpenTailAddsNoLine(flat, c.encode(e));
      assert Flat(c, log) == flat + c.encode(e) + [NEWLINE];
      ClosesLine(flat + c.encode(e) + [NEWLINE]);
      assert (flat + c.encode(e) + [NEWLINE])[..|flat + c.encode(e)|] == flat + c.encode(e);
    }
  }

  lemma {:induction false} OneEncodingEach(c: Codec, log: seq<Event>)
    ensures |Encodings(c, log)| == |log|
  {
    if log != [] {
      OneEncodingEach(c, log[..|log| - 1]);
    }
  }

  lemma LastEncoding(c: Codec, log: seq<Event>)
    requires log != []
    ensures var (lines, n) := (Encodings(c, log), |log| - 1);
      |lines| == |log| && lines[..n] == Encodings(c, log[..n]) && lines[n] == c.encode(log[n])
  {
    OneEncodingEach(c, log[..|log| - 1]);
  }

  lemma EncodingParses(c: Codec, e: Event)
    requires Lossless(c) && Acceptable(e)
    ensures ParseLine(c, c.encode(e)) == Some(e)
  {
  }

  lemma ParseOneMore(c: Codec, lines: seq<seq<Byte>>, log: seq<Event>)
    requires |lines| == |log| > 0 && ParseLines(c, lines[..|log| - 1]) == Ok(log[..|log| - 1])
    requires ParseLine(c, lines[|log| - 1]) == Some(log[|log| - 1])
    ensures ParseLines(c, lines) == Ok(log)
  {
    assert log == log[..|log| - 1] + [log[|log| - 1]];
  }

  lemma {:induction false} EncodingsParse(c: Codec, log: seq<Event>)
    requires Lossless(c) && forall e <- log :: Acceptable(e)
    ensures ParseLines(c, Encodings(c, log)) == Ok(log) && |Encodings(c, log)| == |log|
    decreases |log|
  {
    if log != [] {
      var n := |log| - 1;
      EncodingsParse(c, log[..n]);
      LastEncoding(c, log);
      EncodingParses(c, log[n]);
      ParseOneMore(c, Encodings(c, log), log);
    }
  }

  lemma CutInLastLine(c: Codec, log: seq<Event>, part: seq<Byte>)
    requires Lossless(c) && log != [] && part <= c.encode(log[|log| - 1])
    ensures var flat := Flat(c, log[..|log| - 1]);
      && Complete(flat + part) == |flat| && Lines(flat + part) == Encodings(c, log[..|log| - 1])
      && (flat + part)[..|flat|] == flat
  {
    FlatHasItsLines(c, log[..|log| - 1]);
    OpenTailAddsNoLine(Flat(c, log[..|log| - 1]), part);
  }

  /** The file holds whole lines of the first n events, and less than one more line. */
  predicate HoldsEvents(c: Codec, log: seq<Event>, file: seq<Byte>, n: nat) {
    && n <= |log| && Complete(file) == |Flat(c, log[..n])| && file[..Complete(file)] == Flat(c, log[..n])
    && Lines(file) == Encodings(c, log[..n])
    && (n < |log| ==> |file| < |Flat(c, log[..n + 1])|)
  }

  lemma HoldsInLonger(c: Codec, log: seq<Event>, file: seq<Byte>, n: nat)
    requires log != [] && HoldsEvents(c, log[..|log| - 1], file, n) && |file| < |Flat(c, log)|
    ensures HoldsEvents(c, log, file, n)
  {
    var init := log[..|log| - 1];
    assert init[..n] == log[..n];
    if n < |init| {
      assert init[..n + 1] == log[..n + 1];
    } else {
      assert log[..n + 1] == log;
    }
  }

  /** A file cut anywhere still holds whole lines of a prefix of the log, and a tail without newline. */
  lemma {:induction false} CutFlat(c: Codec, log: seq<Event>, file: seq<Byte>) returns (n: nat)
    requires Lossless(c) && file <= Flat(c, log)
    ensures HoldsEvents(c, log, file, n)
    decreases |log|
  {
    if file == Flat(c, log) {
      FlatHasItsLines(c, log);
      assert log[..|log|] == log;
      return |log|;
    }
    var init := log[..|log| - 1];
    var flat := Flat(c, init);
    if |file| < |flat| {
      n := CutFlat(c, init, file);
    } else {
      assert file == flat + file[|flat|..];
      CutInLastLine(c, log, file[|flat|..]);
      n := |init|;
      assert init[..n] == init;
    }
    HoldsInLonger(c, log, file, n);
  }

  lemma {:induction false} FlatGrows(c: Codec, log: seq<Event>, n: nat)
    requires n <= |log|
    ensures Flat(c, log[..n]) <= Flat(c, log) && (n < |log| ==> |Flat(c, log[..n])| < |Flat(c, log)|)
    decreases |log|
  {
    if n == |log| {
      assert log[..n] == log;
    } else {
      FlatGrows(c, log[..|log| - 1], n);
      assert log[..|log| - 1][..n] == log[..n];
    }
  }

  lemma FlatOrder(c: Codec, log: seq<Event>, m: nat, n: nat)
    requires m <= |log| && n <= |log|
    ensures m < n <==> |Flat(c, log[..m])| < |Flat(c, log[..n])|
  {
    if m < n {
      FlatGrows(c, log[..n], m);
      assert log[..n][..m] == log[..m];
    } else {
      FlatGrows(c, log[..m], n);
      assert log[..m][..n] == log[..n];
    }
  }

  // ---- Runs ----

  /** The store, and what has happened: the log its callers last saw, a write since then that failed, and how many
      leading events an append has acknowledged. */
  datatype World = World(state: State, exposed: seq<Event>, attempt: Option<Event>, acked: nat)

  datatype Step =
    | Opens
    | Appends(entry: Entry, cut: Option<nat>)
    | Closes
    /** The process dies; only the first `keep` bytes of the file survive. */
    | Crashes(keep: nat)
    /** The process dies in open, maybe after the copy of the tail was synced, and maybe after truncating the file. What an
        unsynced copy holds does not matter: the tail is still in the file. */
    | CrashesInOpen(copied: bool, truncated: bool)

  function Dead(d: Disk): State {
    State(d, Memory(false, [], true))
  }

  predicate Possible(c: Codec, w: World, s: Step) {
    var disk := w.state.disk;
    match s
    case Crashes(keep) => disk.synced <= keep <= |disk.file|
    case CrashesInOpen(copied, truncated) =>
      !w.state.memory.open && Recover(c, disk.file).Ok? && Complete(disk.file) < |disk.file| && (truncated ==> copied)
    case _ => true
  }

  function CutShort(d: Disk, copied: bool, truncated: bool): Disk {
    var complete := Complete(d.file);
    var file := if truncated then d.file[..complete] else d.file;
    Disk(file, if d.synced < |file| then d.synced else |file|, d.quarantined + if copied then [d.file[complete..]] else [])
  }

  function Next(c: Codec, w: World, s: Step): World {
    if !Possible(c, w, s) then w
    else match s
      case Opens =>
        var (state, result) := Open(c, w.state);
        if result.Ok? then World(state, state.memory.events, None, w.acked) else w.(state := state)
      case Appends(entry, cut) =>
        var (state, result) := Append(c, w.state, entry, cut);
        if result.Ok? then World(state, w.exposed + [result.value], w.attempt, |w.exposed| + 1)
        else if result.error == WriteFailed then World(state, w.exposed, Some(EventFor(c, w.state.memory.events, entry)), w.acked)
        else w.(state := state)
      case Closes => w.(state := w.state.(memory := w.state.memory.(open := false)))
      case Crashes(keep) => w.(state := Dead(w.state.disk.(file := w.state.disk.file[..keep])))
      case CrashesInOpen(copied, truncated) => w.(state := Dead(CutShort(w.state.disk, copied, truncated)))
  }

  function RunAll(c: Codec, w: World, steps: seq<Step>): World
    decreases |steps|
  {
    if steps == [] then w else RunAll(c, Next(c, w, steps[0]), steps[1..])
  }

  function Fresh(): World {
    World(Dead(Disk([], 0, [])), [], None, 0)
  }

  /** The log the callers saw, and the one event whose write failed since. */
  function Attempted(w: World): seq<Event> {
    w.exposed + if w.attempt.Some? then [w.attempt.value] else []
  }

  // ---- The invariant ----

  ghost predicate LogOk(c: Codec, log: seq<Event>) {
    Verified(c, log) && forall e <- log :: Acceptable(e)
  }

  ghost predicate DiskOk(c: Codec, d: Disk, attempted: seq<Event>, acked: nat) {
    && d.file <= Flat(c, attempted)
    && acked <= |attempted| && |Flat(c, attempted[..acked])| <= d.synced <= |d.file|
  }

  ghost predicate MemoryOk(c: Codec, w: World) {
    w.state.memory.open ==>
      && w.state.memory.events == w.exposed
      && Flat(c, w.exposed) <= w.state.disk.file
      && (w.state.memory.healthy ==> w.attempt.None?)
  }

  ghost predicate Inv(c: Codec, w: World) {
    && LogOk(c, Attempted(w)) && w.acked <= |w.exposed|
    && DiskOk(c, w.state.disk, Attempted(w), w.acked) && MemoryOk(c, w)
  }

  /** Whatever is left of the file recovers as a prefix of the attempted log, no shorter than the acknowledged one. */
  lemma RecoverOf(c: Codec, d: Disk, attempted: seq<Event>, acked: nat) returns (n: nat)
    requires Lossless(c) && LogOk(c, attempted) && DiskOk(c, d, attempted, acked)
    ensures HoldsEvents(c, attempted, d.file, n) && acked <= n && Recover(c, d.file) == Ok(attempted[..n])
  {
    n := CutFlat(c, attempted, d.file);
    EncodingsParse(c, attempted[..n]);
    PrefixIsVerified(c, attempted, n);
    if n < |attempted| {
      FlatOrder(c, attempted, acked, n + 1);
    }
  }

  /** What open recovers from a closed store, and the disk it leaves. */
  lemma OpenRecovers(c: Codec, w: World) returns (n: nat)
    requires Lossless(c) && Inv(c, w) && !w.state.memory.open
    ensures var (w', log) := (Next(c, w, Opens), Attempted(w));
      && w.acked <= n <= |log| && w'.exposed == log[..n] && w'.attempt == None && w'.acked == w.acked
      && w'.state.memory == Memory(true, log[..n], true) && w'.state.disk.file == Flat(c, log[..n])
      && (w'.state.disk.synced == |w'.state.disk.file| || w'.state.disk == w.state.disk)
  {
    n := RecoverOf(c, w.state.disk, Attempted(w), w.acked);
  }

  lemma OpenKeepsInv(c: Codec, w: World)
    requires Lossless(c) && Inv(c, w)
    ensures Inv(c, Next(c, w, Opens))
    ensures !w.state.memory.open ==>
      && Next(c, w, Opens).state.memory.open
      && w.exposed[..w.acked] <= Next(c, w, Opens).exposed <= Attempted(w)
  {
    if !w.state.memory.open {
      var log := Attempted(w);
      var n := OpenRecovers(c, w);
      assert Attempted(Next(c, w, Opens)) == log[..n];
      PrefixIsVerified(c, log, n);
      assert log[..n][..w.acked] == log[..w.acked] == w.exposed[..w.acked];
      FlatGrows(c, log[..n], w.acked);
    }
  }

  predicate Writes(c: Codec, w: World, entry: Entry) {
    w.state.memory.open && w.state.memory.healthy && Serializable(c, w.state.memory.events, entry)
  }

  /** The line of the next event extends the file, and the log stays well formed. */
  lemma NextLineFits(c: Codec, w: World, entry: Entry)
    requires Inv(c, w) && Writes(c, w, entry)
    ensures var event := EventFor(c, w.exposed, entry);
      && w.state.memory.events == w.exposed == Attempted(w) && w.state.disk.file == Flat(c, w.exposed)
      && LogOk(c, w.exposed + [event])
      && Flat(c, w.exposed + [event]) == Flat(c, w.exposed) + Line(c, event)
  {
    var event := EventFor(c, w.exposed, entry);
    assert Attempted(w) == w.exposed;
    AppendKeepsVerified(c, w.exposed, entry.eventId, entry.recordedAt, entry.kind, entry.payload.value);
    assert (w.exposed + [event])[..|w.exposed|] == w.exposed;
  }

  lemma AppendKeepsInv(c: Codec, w: World, entry: Entry)
    requires Inv(c, w)
    ensures Inv(c, Next(c, w, Appends(entry, None)))
    ensures w.exposed <= Next(c, w, Appends(entry, None)).exposed
  {
    if Writes(c, w, entry) {
      NextLineFits(c, w, entry);
      var event := EventFor(c, w.exposed, entry);
      assert Attempted(Next(c, w, Appends(entry, None))) == w.exposed + [event];
      assert (w.exposed + [event])[..|w.exposed| + 1] == w.exposed + [event];
    }
  }

  lemma FailedAppendKeepsInv(c: Codec, w: World, entry: Entry, k: nat)
    requires Inv(c, w)
    ensures Inv(c, Next(c, w, Appends(entry, Some(k))))
    ensures Next(c, w, Appends(entry, Some(k))).exposed == w.exposed
  {
    if Writes(c, w, entry) {
      NextLineFits(c, w, entry);
      var event := EventFor(c, w.exposed, entry);
      assert (w.exposed + [event])[..w.acked] == w.exposed[..w.acked];
    }
  }

  lemma CrashInOpenKeepsInv(c: Codec, w: World, copied: bool, truncated: bool)
    requires Lossless(c) && Inv(c, w)
    ensures Inv(c, Next(c, w, CrashesInOpen(copied, truncated)))
  {
    if Possible(c, w, CrashesInOpen(copied, truncated)) && truncated {
      TruncationKeepsDisk(c, w.state.disk, copied, Attempted(w), w.acked);
    }
  }

  lemma TruncationKeepsDisk(c: Codec, d: Disk, copied: bool, attempted: seq<Event>, acked: nat)
    requires Lossless(c) && LogOk(c, attempted) && DiskOk(c, d, attempted, acked)
    ensures DiskOk(c, CutShort(d, copied, true), attempted, acked)
  {
    var n := RecoverOf(c, d, attempted, acked);
    FlatGrows(c, attempted[..n], acked);
    assert attempted[..n][..acked] == attempted[..acked];
  }

  lemma CrashKeepsInv(c: Codec, w: World, keep: nat)
    requires Inv(c, w)
    ensures Inv(c, Next(c, w, Crashes(keep)))
  {
  }

  lemma NextKeepsInv(c: Codec, w: World, s: Step)
    requires Lossless(c) && Inv(c, w)
    ensures Inv(c, Next(c, w, s))
  {
    match s
    case Opens => OpenKeepsInv(c, w);
    case Appends(entry, None) => AppendKeepsInv(c, w, entry);
    case Appends(entry, Some(k)) => FailedAppendKeepsInv(c, w, entry, k);
    case Closes =>
    case Crashes(keep) => CrashKeepsInv(c, w, keep);
    case CrashesInOpen(copied, truncated) => CrashInOpenKeepsInv(c, w, copied, truncated);
  }

  lemma OpenKeepsAcknowledged(c: Codec, w: World)
    requires Lossless(c) && Inv(c, w)
    ensures var w' := Next(c, w, Opens); w'.acked == w.acked <= |w'.exposed| && w.exposed[..w.acked] == w'.exposed[..w.acked]
  {
    OpenKeepsInv(c, w);
  }

  lemma OtherStepsKeepExposed(c: Codec, w: World, s: Step)
    requires !s.Opens? && !s.Appends?
    ensures Next(c, w, s).exposed == w.exposed && Next(c, w, s).acked == w.acked
  {
  }

  lemma AppendKeepsAcknowledged(c: Codec, w: World, entry: Entry, cut: Option<nat>)
    requires w.acked <= |w.exposed|
    ensures var w' := Next(c, w, Appends(entry, cut));
      w.exposed <= w'.exposed && w.acked <= w'.acked <= |w'.exposed|
  {
  }

  lemma NextKeepsAcknowledged(c: Codec, w: World, s: Step)
    requires Lossless(c) && Inv(c, w)
    ensures w.acked <= Next(c, w, s).acked <= |Next(c, w, s).exposed|
    ensures w.exposed[..w.acked] == Next(c, w, s).exposed[..w.acked]
  {
    match s
    case Opens => OpenKeepsAcknowledged(c, w);
    case Appends(entry, cut) => AppendKeepsAcknowledged(c, w, entry, cut);
    case _ => OtherStepsKeepExposed(c, w, s);
  }

  lemma {:induction false} RunKeepsInv(c: Codec, w: World, steps: seq<Step>)
    requires Lossless(c) && Inv(c, w)
    ensures var w' := RunAll(c, w, steps);
      Inv(c, w') && w.acked <= w'.acked && w.exposed[..w.acked] == w'.exposed[..w.acked]
    decreases |steps|
  {
    if steps != [] {
      var next := Next(c, w, steps[0]);
      NextKeepsInv(c, w, steps[0]);
      NextKeepsAcknowledged(c, w, steps[0]);
      RunKeepsInv(c, next, steps[1..]);
      var w' := RunAll(c, w, steps);
      assert next.exposed[..w.acked] == next.exposed[..next.acked][..w.acked] == w'.exposed[..next.acked][..w.acked];
    }
  }

  lemma FreshIsOk(c: Codec)
    requires Lossless(c)
    ensures Inv(c, Fresh())
  {
  }

  // ---- What the store promises ----

  function Reach(c: Codec, steps: seq<Step>): World {
    RunAll(c, Fresh(), steps)
  }

  /** In every reachable state the file recovers a verified log, and an open store serves a verified log. */
  lemma RecoveryNeverFails(c: Codec, steps: seq<Step>)
    requires Lossless(c)
    ensures var w := Reach(c, steps);
      && Recover(c, w.state.disk.file).Ok? && Verified(c, Recover(c, w.state.disk.file).value)
      && (w.state.memory.open ==> w.state.memory.events == w.exposed && Verified(c, w.exposed))
  {
    var w := Reach(c, steps);
    RunKeepsInv(c, Fresh(), steps);
    var n := RecoverOf(c, w.state.disk, Attempted(w), w.acked);
    PrefixIsVerified(c, Attempted(w), |w.exposed|);
    assert Attempted(w)[..|w.exposed|] == w.exposed;
  }

  /** What open recovers lies between the acknowledged events and the attempted ones. */
  lemma RecoveredIsBetween(c: Codec, steps: seq<Step>)
    requires Lossless(c)
    ensures var w := Reach(c, steps); var (state, result) := Open(c, w.state);
      !w.state.memory.open ==>
        result.Ok? && w.acked <= |w.exposed| && w.exposed[..w.acked] <= state.memory.events <= Attempted(w)
  {
    RunKeepsInv(c, Fresh(), steps);
    OpenKeepsInv(c, Reach(c, steps));
  }

  /** The event that append returns is acknowledged, as the last of the log. */
  lemma AppendAcknowledges(c: Codec, steps: seq<Step>, entry: Entry, cut: Option<nat>)
    requires Lossless(c) && Append(c, Reach(c, steps).state, entry, cut).1.Ok?
    ensures var w := Next(c, Reach(c, steps), Appends(entry, cut));
      w.acked == |w.exposed| > 0 && w.exposed[w.acked - 1] == Append(c, Reach(c, steps).state, entry, cut).1.value
  {
  }

  /** An acknowledged event keeps its position in every later log, whatever crashes follow. */
  lemma AcknowledgedForEver(c: Codec, steps: seq<Step>, more: seq<Step>, i: nat)
    requires Lossless(c) && i < Reach(c, steps).acked
    ensures var (w, w') := (Reach(c, steps), RunAll(c, Reach(c, steps), more));
      i < |w.exposed| && i < w'.acked <= |w'.exposed| && w'.exposed[i] == w.exposed[i]
  {
    var w := Reach(c, steps);
    RunKeepsInv(c, Fresh(), steps);
    RunKeepsInv(c, w, more);
    var w' := RunAll(c, w, more);
    assert w.exposed[..w.acked][i] == w'.exposed[..w.acked][i];
  }

  /** Opening never discards a byte: the file found is the file kept plus the tail put in quarantine. */
  lemma OpenKeepsEveryByte(c: Codec, s: State)
    requires !s.memory.open && Recover(c, s.disk.file).Ok?
    ensures var disk := Open(c, s).0.disk;
      var tail := s.disk.file[|disk.file|..];
      && |disk.file| <= |s.disk.file| && s.disk.file == disk.file + tail && NEWLINE !in tail
      && disk.quarantined == s.disk.quarantined + if tail == [] then [] else [tail]
  {
  }

  /** What was put in quarantine stays there. */
  lemma {:induction false} QuarantineOnlyGrows(c: Codec, w: World, steps: seq<Step>)
    ensures w.state.disk.quarantined <= RunAll(c, w, steps).state.disk.quarantined
    decreases |steps|
  {
    if steps != [] {
      QuarantineOnlyGrows(c, Next(c, w, steps[0]), steps[1..]);
    }
  }

  /** A cut file recovers the prefix `log` of the attempted events exactly when it still holds all of its lines. */
  lemma RecoversAtLeast(c: Codec, d: Disk, attempted: seq<Event>, acked: nat, log: seq<Event>)
    requires Lossless(c) && LogOk(c, attempted) && DiskOk(c, d, attempted, acked) && log <= attempted
    ensures Recover(c, d.file).Ok? && (log <= Recover(c, d.file).value <==> |Flat(c, log)| <= |d.file|)
  {
    var n := RecoverOf(c, d, attempted, acked);
    assert attempted[..|log|] == log;
    assert Complete(d.file) <= |d.file|;
    if |log| <= n {
      FlatOrder(c, attempted, n, |log|);
    } else {
      FlatOrder(c, attempted, |log|, n + 1);
    }
  }

  /** After a crash that keeps `keep` bytes, the log the callers saw is recovered exactly when those bytes hold it. */
  lemma ExposedSurvivesIff(c: Codec, steps: seq<Step>, keep: nat)
    requires Lossless(c) && Reach(c, steps).state.memory.open && Possible(c, Reach(c, steps), Crashes(keep))
    ensures var w := Reach(c, steps);
      w.exposed <= Next(c, Next(c, w, Crashes(keep)), Opens).exposed <==> |Flat(c, w.exposed)| <= keep
  {
    var w := Reach(c, steps);
    RunKeepsInv(c, Fresh(), steps);
    CrashKeepsInv(c, w, keep);
    RecoversAtLeast(c, Next(c, w, Crashes(keep)).state.disk, Attempted(w), w.acked, w.exposed);
  }

  /** Every byte of the log the callers saw is synced. */
  ghost predicate Durable(c: Codec, w: World) {
    |Flat(c, w.exposed)| <= w.state.disk.synced
  }

  /** The log the callers saw outlives whatever crash may come next exactly when all of it is synced. */
  lemma ExposedSurvivesEveryCrashIff(c: Codec, steps: seq<Step>)
    requires Lossless(c) && Reach(c, steps).state.memory.open
    ensures var w := Reach(c, steps);
      (forall keep: nat | Possible(c, w, Crashes(keep)) :: w.exposed <= Next(c, Next(c, w, Crashes(keep)), Opens).exposed)
        <==> Durable(c, w)
  {
    var w := Reach(c, steps);
    forall keep: nat | Possible(c, w, Crashes(keep))
      ensures w.exposed <= Next(c, Next(c, w, Crashes(keep)), Opens).exposed <==> |Flat(c, w.exposed)| <= keep
    {
      ExposedSurvivesIff(c, steps, keep);
    }
    RunKeepsInv(c, Fresh(), steps);
    assert Possible(c, w, Crashes(w.state.disk.synced));
  }

  /** An append that succeeds syncs the whole log. */
  lemma AppendIsDurable(c: Codec, steps: seq<Step>, entry: Entry)
    requires Lossless(c) && Append(c, Reach(c, steps).state, entry, None).1.Ok?
    ensures Durable(c, Next(c, Reach(c, steps), Appends(entry, None)))
  {
    RunKeepsInv(c, Fresh(), steps);
    NextLineFits(c, Reach(c, steps), entry);
  }

  /** The log that an open serves is synced exactly when it cut a partial tail off or the whole file was synced before. */
  lemma OpenIsDurableIff(c: Codec, steps: seq<Step>)
    requires Lossless(c) && !Reach(c, steps).state.memory.open
    ensures var (w, d) := (Reach(c, steps), Reach(c, steps).state.disk);
      Durable(c, Next(c, w, Opens)) <==> Complete(d.file) < |d.file| || d.synced == |d.file|
  {
    RunKeepsInv(c, Fresh(), steps);
    var n := OpenRecovers(c, Reach(c, steps));
  }

  // ---- What is durable stays ----

  /** The two worlds differ at most in what counts as acknowledged. */
  predicate SameButAcked(w: World, v: World) {
    v == w.(acked := v.acked)
  }

  lemma NextIgnoresAcked(c: Codec, w: World, v: World, s: Step)
    requires SameButAcked(w, v)
    ensures SameButAcked(Next(c, w, s), Next(c, v, s))
  {
  }

  lemma {:induction false} RunIgnoresAcked(c: Codec, w: World, v: World, steps: seq<Step>)
    requires SameButAcked(w, v)
    ensures SameButAcked(RunAll(c, w, steps), RunAll(c, v, steps))
    decreases |steps|
  {
    if steps != [] {
      NextIgnoresAcked(c, w, v, steps[0]);
      RunIgnoresAcked(c, Next(c, w, steps[0]), Next(c, v, steps[0]), steps[1..]);
    }
  }

  /** A log that was durable once begins every later log, as if each of its events had been acknowledged. */
  lemma DurableForEver(c: Codec, steps: seq<Step>, more: seq<Step>)
    requires Lossless(c) && Durable(c, Reach(c, steps))
    ensures Reach(c, steps).exposed <= RunAll(c, Reach(c, steps), more).exposed
  {
    var w := Reach(c, steps);
    RunKeepsInv(c, Fresh(), steps);
    var v := w.(acked := |w.exposed|);
    assert Attempted(v)[..v.acked] == w.exposed;
    RunKeepsInv(c, v, more);
    RunIgnoresAcked(c, w, v, more);
    assert v.exposed[..v.acked] == w.exposed;
  }

  /** Only an open, which may serve more, ends it. */
  lemma {:induction false} StaysDurable(c: Codec, w: World, more: seq<Step>)
    requires Lossless(c) && Inv(c, w) && Durable(c, w) && forall s <- more :: !s.Opens?
    ensures Durable(c, RunAll(c, w, more))
    decreases |more|
  {
    if more != [] {
      assert more[0] in more;
      StepStaysDurable(c, w, more[0]);
      NextKeepsInv(c, w, more[0]);
      StaysDurable(c, Next(c, w, more[0]), more[1..]);
    }
  }

  lemma StepStaysDurable(c: Codec, w: World, s: Step)
    requires Lossless(c) && Inv(c, w) && Durable(c, w) && !s.Opens?
    ensures Durable(c, Next(c, w, s))
  {
    if s.Appends? && Writes(c, w, s.entry) {
      NextLineFits(c, w, s.entry);
    } else if s.CrashesInOpen? && Possible(c, w, s) {
      var v := w.(acked := |w.exposed|);
      assert Attempted(v)[..v.acked] == w.exposed;
      CrashInOpenKeepsInv(c, v, s.copied, s.truncated);
      assert Attempted(v)[..v.acked] == w.exposed;
    }
  }

  /** Since the last append that succeeded, and until the next open, the log the callers see survives every crash. */
  lemma DurableSinceAppend(c: Codec, steps: seq<Step>, entry: Entry, more: seq<Step>)
    requires Lossless(c) && Append(c, Reach(c, steps).state, entry, None).1.Ok? && forall s <- more :: !s.Opens?
    ensures Durable(c, RunAll(c, Next(c, Reach(c, steps), Appends(entry, None)), more))
  {
    RunKeepsInv(c, Fresh(), steps);
    AppendIsDurable(c, steps, entry);
    NextKeepsInv(c, Reach(c, steps), Appends(entry, None));
    StaysDurable(c, Next(c, Reach(c, steps), Appends(entry, None)), more);
  }

  /** A log that open has served is not yet synced: after a power failure the next open may miss its last event. */
  lemma ExposedCanBeLost(c: Codec, entry: Entry)
    requires Lossless(c) && Serializable(c, [], entry)
    ensures var event := EventFor(c, [], entry);
      var steps := [Opens, Appends(entry, Some(|Line(c, event)|)), Crashes(|Line(c, event)|), Opens];
      && Reach(c, steps).exposed == [event] && Reach(c, steps).state.memory.open
      && RunAll(c, Reach(c, steps), [Crashes(0), Opens]).exposed == []
  {
    var event := EventFor(c, [], entry);
    var line := Line(c, event);
    var w1 := Next(c, Fresh(), Opens);
    assert Lines([]) == [];
    assert w1 == World(State(Disk([], 0, []), Memory(true, [], true)), [], None, 0);
    var w2 := Next(c, w1, Appends(entry, Some(|line|)));
    var w3 := Next(c, w2, Crashes(|line|));
    assert w3.state.disk == Disk(line, 0, []);
    assert Flat(c, [event]) == line;
    AppendKeepsVerified(c, [], entry.eventId, entry.recordedAt, entry.kind, entry.payload.value);
    assert [] + [event] == [event];
    var n := RecoverOf(c, w3.state.disk, [event], 0);
    assert n == 1;
    assert [event][..1] == [event];
    var w4 := Next(c, w3, Opens);
    var steps := [Opens, Appends(entry, Some(|line|)), Crashes(|line|), Opens];
    assert RunAll(c, Fresh(), steps) == RunAll(c, w1, steps[1..]) == RunAll(c, w2, steps[1..][1..])
        == RunAll(c, w3, steps[1..][1..][1..]) == w4;
    var w5 := Next(c, w4, Crashes(0));
    assert w5.state.disk.file == [];
    assert RunAll(c, w4, [Crashes(0), Opens]) == RunAll(c, w5, [Crashes(0), Opens][1..]) == Next(c, w5, Opens);
  }
}
