/**
 What `open` of the node tool policy leaves behind after a crash. The first result holds
 for any database at all; the others for any database a run of the Hub can produce.
 */
module HubRestart {
  import opened Wrappers
  import opened Jobs
  import opened NodeTools
  import opened HubRuns
  import opened HubGuarantees

  /** No orphaned call: whatever is still held belongs to a Job that lives, under its current, unexpired lease. */
  ghost predicate NoOrphan(h: Hub, now: Time) {
    forall c <- h.calls | h.calls[c].status == Pending :: StillHeld(h.jobs, h.calls[c].call, now)
  }

  /** No stuck hold: an agent Job held under a lease that has calls has a held call of that lease. */
  ghost predicate NoStuckHold(h: Hub) {
    forall c <- h.calls | SamePendingJob(h.jobs, h.calls[c].call) ::
      exists d :: d in h.calls && h.calls[d].status == Pending && SameLease(h.calls[d].call, h.calls[c].call)
  }

  predicate SameLease(call: Call, call': Call) {
    call.jobId == call'.jobId && call.leaseId == call'.leaseId
  }

  // ---- The loop ----

  /** After the first `i` rows: those satisfy the two properties among themselves, the rest are untouched. */
  ghost predicate Progress(h: Hub, rows: seq<Row>, i: nat, now: Time) {
    && i <= |rows|
    && (forall k | 0 <= k < |rows| :: rows[k].call.callId in h.calls && h.calls[rows[k].call.callId].call == rows[k].call)
    && (forall k, l | 0 <= k < l < |rows| :: rows[k].call.callId != rows[l].call.callId)
    && (forall k | i <= k < |rows| :: h.calls[rows[k].call.callId] == rows[k])
    && (forall k | 0 <= k < i && Held(h, rows[k]) :: StillHeld(h.jobs, rows[k].call, now))
    && (forall k | 0 <= k < i && SamePendingJob(h.jobs, rows[k].call) ::
          exists l | 0 <= l < i :: Held(h, rows[l]) && SameLease(rows[l].call, rows[k].call))
  }

  predicate Held(h: Hub, row: Row)
  {
    row.call.callId in h.calls && h.calls[row.call.callId].status == Pending
  }

  /** What one iteration may do to the Job of its row; every other Job is left alone. */
  ghost predicate OnlyThisJob(h: Hub, h': Hub, row: Row) {
    && (forall j | j != row.call.jobId :: (j in h'.jobs.jobs <==> j in h.jobs.jobs)
          && (j in h.jobs.jobs ==> h'.jobs.jobs[j] == h.jobs.jobs[j]))
    && h'.calls.Keys == h.calls.Keys
    && (forall c <- h.calls | c != row.call.callId :: h'.calls[c] == h.calls[c])
    && (row.call.callId in h.calls ==> h'.calls[row.call.callId].call == h.calls[row.call.callId].call)
  }

  lemma RowTouchesOneJob(h: Hub, row: Row, now: Time)
    requires ReconcileRow(h, row, now).result.Ok?
    ensures OnlyThisJob(h, After(h, ReconcileRow(h, row, now).committed), row)
  {
  }

  lemma RowKeepsHeldCalls(h: Hub, row: Row, other: Call, now: Time)
    requires ReconcileRow(h, row, now).result.Ok? && StillHeld(h.jobs, other, now)
    ensures StillHeld(After(h, ReconcileRow(h, row, now).committed).jobs, other, now)
  {
  }

  /** The row itself: held under a lease that runs, or settled and its Job not waiting on its lease. */
  lemma RowIsSettled(h: Hub, row: Row, now: Time)
    requires ReconcileRow(h, row, now).result.Ok? && row.call.callId in h.calls && h.calls[row.call.callId] == row
    ensures var h' := After(h, ReconcileRow(h, row, now).committed);
      if Held(h', row) then StillHeld(h'.jobs, row.call, now) else !SamePendingJob(h'.jobs, row.call)
  {
  }

  /** A Job that still waits was left alone, or is held for this very row. */
  lemma WaitingIsForThisRow(h: Hub, row: Row, other: Call, now: Time)
    requires ReconcileRow(h, row, now).result.Ok? && row.call.callId in h.calls && h.calls[row.call.callId] == row
    requires other.jobId == row.call.jobId && SamePendingJob(After(h, ReconcileRow(h, row, now).committed).jobs, other)
    ensures var h' := After(h, ReconcileRow(h, row, now).committed);
      SamePendingJob(h.jobs, other) || (Held(h', row) && SameLease(row.call, other))
  {
  }

  lemma RowMakesProgress(h: Hub, rows: seq<Row>, i: nat, now: Time)
    requires Progress(h, rows, i, now) && i < |rows| && ReconcileRow(h, rows[i], now).result.Ok?
    ensures Progress(After(h, ReconcileRow(h, rows[i], now).committed), rows, i + 1, now)
  {
    var row := rows[i];
    var h' := After(h, ReconcileRow(h, row, now).committed);
    RowTouchesOneJob(h, row, now);
    RowIsSettled(h, row, now);
    forall k | 0 <= k < i + 1 && Held(h', rows[k]) ensures StillHeld(h'.jobs, rows[k].call, now) {
      if k < i { RowKeepsHeldCalls(h, row, rows[k].call, now); }
    }
    forall k | 0 <= k < i + 1 && SamePendingJob(h'.jobs, rows[k].call)
      ensures exists l | 0 <= l < i + 1 :: Held(h', rows[l]) && SameLease(rows[l].call, rows[k].call)
    {
      if k == i {
        assert Held(h', rows[i]) && SameLease(rows[i].call, rows[k].call);
      } else if rows[k].call.jobId == row.call.jobId {
        WaitingIsForThisRow(h, row, rows[k].call, now);
      }
      if k < i && SamePendingJob(h.jobs, rows[k].call) && !(Held(h', row) && SameLease(row.call, rows[k].call)) {
        StillWaitingHasAHeldRow(h, h', rows, i, k);
      }
    }
  }

  lemma StillWaitingHasAHeldRow(h: Hub, h': Hub, rows: seq<Row>, i: nat, k: nat)
    requires k < i < |rows| && OnlyThisJob(h, h', rows[i])
    requires forall k, l | 0 <= k < l < |rows| :: rows[k].call.callId != rows[l].call.callId
    requires exists l | 0 <= l < i :: Held(h, rows[l]) && SameLease(rows[l].call, rows[k].call)
    ensures exists l | 0 <= l < i + 1 :: Held(h', rows[l]) && SameLease(rows[l].call, rows[k].call)
  {
    var l :| 0 <= l < i && Held(h, rows[l]) && SameLease(rows[l].call, rows[k].call);
    assert rows[l].call.callId != rows[i].call.callId;
    assert Held(h', rows[l]);
  }

  lemma {:induction false} LoopKeepsKeys(h: Hub, rows: seq<Row>, now: Time)
    requires ReconcileRows(h, rows, now).result.Ok?
    ensures After(h, ReconcileRows(h, rows, now).committed).calls.Keys == h.calls.Keys
    decreases |rows|
  {
    if rows != [] {
      var first := ReconcileRow(h, rows[0], now);
      var h' := After(h, first.committed);
      RowTouchesOneJob(h, rows[0], now);
      LoopKeepsKeys(h', rows[1..], now);
      AfterAppend(h, first.committed, ReconcileRows(h', rows[1..], now).committed);
    }
  }

  lemma ProgressIsEnough(h: Hub, rows: seq<Row>, now: Time)
    requires Progress(h, rows, |rows|, now)
    requires forall c <- h.calls :: exists k | 0 <= k < |rows| :: rows[k].call.callId == c
    ensures NoOrphan(h, now) && NoStuckHold(h)
  {
    forall c <- h.calls | h.calls[c].status == Pending ensures StillHeld(h.jobs, h.calls[c].call, now) {
      var k :| 0 <= k < |rows| && rows[k].call.callId == c;
      assert Held(h, rows[k]);
    }
    forall c <- h.calls | SamePendingJob(h.jobs, h.calls[c].call)
      ensures exists d :: d in h.calls && h.calls[d].status == Pending && SameLease(h.calls[d].call, h.calls[c].call)
    {
      var k :| 0 <= k < |rows| && rows[k].call.callId == c;
      assert SamePendingJob(h.jobs, rows[k].call);
      var l :| 0 <= l < |rows| && Held(h, rows[l]) && SameLease(rows[l].call, rows[k].call);
      assert rows[l].call.callId in h.calls;
    }
  }

  // ---- Which held calls can be decided ----

  /** The last row of the call's lease, in the order of the query, is a held one. */
  ghost predicate LastIsHeld(rows: seq<Row>, call: Call) {
    exists k | 0 <= k < |rows| ::
      && SameLease(rows[k].call, call) && rows[k].status == Pending
      && forall l | k < l < |rows| :: !SameLease(rows[l].call, call)
  }

  /** One iteration makes the Job of a held call wait or not, as its own row says, if the row is of the same lease. */
  lemma RowDecidesWaiting(h: Hub, row: Row, call: Call, now: Time)
    requires ReconcileRow(h, row, now).result.Ok? && StillHeld(h.jobs, call, now)
    ensures SamePendingJob(After(h, ReconcileRow(h, row, now).committed).jobs, call)
      <==> if SameLease(row.call, call) then row.status == Pending else SamePendingJob(h.jobs, call)
  {
  }

  lemma LastOfOneMore(rows: seq<Row>, row: Row, call: Call)
    ensures LastIsHeld(rows + [row], call) <==> if SameLease(row.call, call) then row.status == Pending else LastIsHeld(rows, call)
  {
    var more := rows + [row];
    assert more[|rows|] == row;
    if LastIsHeld(rows, call) && !SameLease(row.call, call) {
      var k :| 0 <= k < |rows| && SameLease(rows[k].call, call) && rows[k].status == Pending
        && forall l | k < l < |rows| :: !SameLease(rows[l].call, call);
      assert more[k] == rows[k];
    }
    if LastIsHeld(more, call) {
      var k :| 0 <= k < |more| && SameLease(more[k].call, call) && more[k].status == Pending
        && forall l | k < l < |more| :: !SameLease(more[l].call, call);
      if k < |rows| {
        assert rows[k] == more[k];
        forall l | k < l < |rows| ensures !SameLease(rows[l].call, call) {
          assert more[l] == rows[l];
        }
      }
    }
  }

  /** After the first i rows, the held ones among them wait as their lease's last row says. */
  ghost predicate WaitAsLast(h: Hub, rows: seq<Row>, i: nat)
    requires i <= |rows|
  {
    forall k | 0 <= k < i && Held(h, rows[k]) ::
      && SamePendingJob(h.jobs, rows[k].call) <==> LastIsHeld(rows[..i], rows[k].call)
  }

  lemma RowKeepsWaiting(h: Hub, rows: seq<Row>, i: nat, now: Time)
    requires Progress(h, rows, i, now) && i < |rows| && ReconcileRow(h, rows[i], now).result.Ok? && WaitAsLast(h, rows, i)
    ensures WaitAsLast(After(h, ReconcileRow(h, rows[i], now).committed), rows, i + 1)
  {
    var row := rows[i];
    var h' := After(h, ReconcileRow(h, row, now).committed);
    RowTouchesOneJob(h, row, now);
    RowIsSettled(h, row, now);
    assert rows[..i + 1] == rows[..i] + [row];
    forall k | 0 <= k < i + 1 && Held(h', rows[k])
      ensures SamePendingJob(h'.jobs, rows[k].call) <==> LastIsHeld(rows[..i + 1], rows[k].call)
    {
      LastOfOneMore(rows[..i], row, rows[k].call);
      HeldWasHeld(h, rows, i, k, now);
      RowDecidesWaiting(h, row, rows[k].call, now);
    }
  }

  /** A row held after the iteration was held, under a lease that runs, before it. */
  lemma HeldWasHeld(h: Hub, rows: seq<Row>, i: nat, k: nat, now: Time)
    requires Progress(h, rows, i, now) && k <= i < |rows| && ReconcileRow(h, rows[i], now).result.Ok?
    requires Held(After(h, ReconcileRow(h, rows[i], now).committed), rows[k])
    ensures Held(h, rows[k]) && StillHeld(h.jobs, rows[k].call, now)
  {
    RowTouchesOneJob(h, rows[i], now);
  }

  ghost predicate Advanced(h: Hub, rows: seq<Row>, i: nat, now: Time) {
    Progress(h, rows, i, now) && WaitAsLast(h, rows, i)
  }

  lemma RowAdvances(h: Hub, rows: seq<Row>, i: nat, now: Time)
    requires Advanced(h, rows, i, now) && i < |rows| && ReconcileRow(h, rows[i], now).result.Ok?
    ensures Advanced(After(h, ReconcileRow(h, rows[i], now).committed), rows, i + 1, now)
  {
    RowMakesProgress(h, rows, i, now);
    RowKeepsWaiting(h, rows, i, now);
  }

  /** What every iteration keeps, the loop keeps. */
  lemma {:induction false} LoopKeeps(kept: (Hub, nat) -> bool, h: Hub, rows: seq<Row>, i: nat, now: Time)
    requires i <= |rows| && kept(h, i) && ReconcileRows(h, rows[i..], now).result.Ok?
    requires forall g: Hub, k: nat | k < |rows| && kept(g, k) && ReconcileRow(g, rows[k], now).result.Ok? ::
               kept(After(g, ReconcileRow(g, rows[k], now).committed), k + 1)
    ensures kept(After(h, ReconcileRows(h, rows[i..], now).committed), |rows|)
    decreases |rows| - i
  {
    if i < |rows| {
      var first := ReconcileRow(h, rows[i], now);
      var h' := After(h, first.committed);
      assert rows[i..][1..] == rows[i + 1..];
      LoopKeeps(kept, h', rows, i + 1, now);
      AfterAppend(h, first.committed, ReconcileRows(h', rows[i + 1..], now).committed);
    }
  }

  lemma LoopAdvances(h: Hub, rows: seq<Row>, now: Time)
    requires Advanced(h, rows, 0, now) && ReconcileRows(h, rows, now).result.Ok?
    ensures Advanced(After(h, ReconcileRows(h, rows, now).committed), rows, |rows|, now)
  {
    forall g: Hub, k: nat | k < |rows| && Advanced(g, rows, k, now) && ReconcileRow(g, rows[k], now).result.Ok?
      ensures Advanced(After(g, ReconcileRow(g, rows[k], now).committed), rows, k + 1, now)
    {
      RowAdvances(g, rows, k, now);
    }
    assert rows[0..] == rows;
    LoopKeeps((g: Hub, k: nat) => Advanced(g, rows, k, now), h, rows, 0, now);
  }

  /** Whenever open returns, no held call is orphaned and no hold is stuck, whatever the database was. */
  lemma RestartReconciles(h: Hub, rows: seq<Row>, now: Time)
    requires AllRows(h.calls, rows) && ReconcileRows(h, rows, now).result.Ok?
    ensures var h' := After(h, ReconcileRows(h, rows, now).committed); NoOrphan(h', now) && NoStuckHold(h')
  {
    LoopAdvances(h, rows, now);
    LoopKeepsKeys(h, rows, now);
    ProgressIsEnough(After(h, ReconcileRows(h, rows, now).committed), rows, now);
  }

  /** When open returns, the Job of a held call waits exactly when the last row of the call's lease is held. */
  lemma HeldJobWaitsIff(h: Hub, rows: seq<Row>, now: Time, c: Id)
    requires AllRows(h.calls, rows) && ReconcileRows(h, rows, now).result.Ok?
    requires c in h.calls && Held(After(h, ReconcileRows(h, rows, now).committed), h.calls[c])
    ensures SamePendingJob(After(h, ReconcileRows(h, rows, now).committed).jobs, h.calls[c].call) <==> LastIsHeld(rows, h.calls[c].call)
  {
    assert rows[..|rows|] == rows;
    LoopAdvances(h, rows, now);
    var k :| 0 <= k < |rows| && rows[k].call.callId == c;
    assert rows[k] == h.calls[c];
  }

  /** Approving a held call whose Job waits decides it; approving one whose Job does not wait throws. */
  lemma ApprovalOfHeldCall(w: World, c: Id, ownerId: string, now: Time)
    requires Inv(w) && c in w.hub.calls && w.hub.calls[c].status == Pending && OnCurrentLease(w.hub.jobs, w.hub.calls[c].call)
    ensures var (r, call) := (ApproveCall(w.hub, c, ownerId, now).result, w.hub.calls[c].call);
      if SamePendingJob(w.hub.jobs, call)
      then r.Ok? && r.value.status == (if now < w.hub.jobs.jobs[call.jobId].spec.value.leaseExpiresAt then Approved else Denied)
      else r == Err(NotBound)
  {
    assert RowOk(w, c, w.hub.calls[c]);
  }

  lemma NotedIs(w: World, op: Op, now: Time)
    ensures Noted(w, op, now).hub == w.hub && Noted(w, op, now).clock == now
  {
  }

  lemma NextRecords(w: World, s: Step)
    requires Possible(w, s) && s.commits > 0
    ensures Next(w, s) == RecordAll(Noted(w, s.op, s.now), Commits(w.hub, s.op, s.now)[..s.commits])
  {
  }

  /** The database after a step is the last state that the step committed. */
  lemma HubAfterStep(w: World, s: Step, h: Hub)
    requires Possible(w, s) && s.commits > 0 && Commits(w.hub, s.op, s.now)[s.commits - 1] == h
    ensures Next(w, s).hub == h && Next(w, s).clock == s.now
  {
    var commits := Commits(w.hub, s.op, s.now)[..s.commits];
    NextRecords(w, s);
    NotedIs(w, s.op, s.now);
    RecordAllIs(Noted(w, s.op, s.now), commits);
    assert commits[|commits| - 1] == h;
  }

  lemma WholeOpen(w: World, rows: seq<Row>, now: Time)
    requires w.clock <= now
    ensures var committed := ReconcileRows(w.hub, rows, now).committed;
      Next(w, Step(Reopen(rows), now, |committed|)).hub == After(w.hub, committed)
  {
    var committed := ReconcileRows(w.hub, rows, now).committed;
    if committed != [] { HubAfterStep(w, Step(Reopen(rows), now, |committed|), committed[|committed| - 1]); }
  }

  lemma OpenedIsGood(clock: Time, steps: seq<Step>, rows: seq<Row>, now: Time) returns (w: World)
    requires Reach(clock, steps).clock <= now
    ensures Inv(w) && w.hub == After(Reach(clock, steps).hub, ReconcileRows(Reach(clock, steps).hub, rows, now).committed)
    ensures Extends(Reach(clock, steps).hub, w.hub)
  {
    ReachIsGood(clock, steps);
    var w0 := Reach(clock, steps);
    var step := Step(Reopen(rows), now, |ReconcileRows(w0.hub, rows, now).committed|);
    w := Next(w0, step);
    NextIsGood(w0, step);
    WholeOpen(w0, rows, now);
  }

  /** When open returns, approving a held call succeeds exactly when the last row of its lease is held; otherwise it throws. */
  lemma HeldCallIsDecidedIff(clock: Time, steps: seq<Step>, rows: seq<Row>, now: Time, c: Id, ownerId: string, later: Time)
    requires Reach(clock, steps).clock <= now && AllRows(Reach(clock, steps).hub.calls, rows) && c in Reach(clock, steps).hub.calls
    requires ReconcileRows(Reach(clock, steps).hub, rows, now).result.Ok?
    requires var h := Reach(clock, steps).hub; Held(After(h, ReconcileRows(h, rows, now).committed), h.calls[c])
    ensures var h := Reach(clock, steps).hub;
      var (h', call) := (After(h, ReconcileRows(h, rows, now).committed), h.calls[c].call);
      && OnCurrentLease(h'.jobs, call)
      && var r := ApproveCall(h', c, ownerId, later).result;
         if LastIsHeld(rows, call)
         then r.Ok? && r.value.status == (if later < h'.jobs.jobs[call.jobId].spec.value.leaseExpiresAt then Approved else Denied)
         else r == Err(NotBound)
  {
    var h := Reach(clock, steps).hub;
    ReachIsGood(clock, steps);
    assert RowOk(Reach(clock, steps), c, h.calls[c]);
    var w := OpenedIsGood(clock, steps, rows, now);
    RestartReconciles(h, rows, now);
    HeldJobWaitsIff(h, rows, now, c);
    assert SameCall(h.calls[c], w.hub.calls[c]);
    ApprovalOfHeldCall(w, c, ownerId, later);
  }

  // ---- When open throws ----

  /** A held call whose Job has moved to a state it cannot be held in, under a lease that still runs. */
  predicate Blocked(t: Table, row: Row, now: Time) {
    row.status == Pending && StillHeld(t, row.call, now) && t.jobs[row.call.jobId].status in {WaitUser, Unknown, Reconciling}
  }

  /** A row with a live authorisation on its Job's current lease can always be dispatched. */
  lemma DispatchNeverThrows(w: World, callId: Id, row: Row, now: Time)
    requires Inv(w) && RowOk(w, callId, row) && SamePendingJob(w.hub.jobs, row.call) && DecisionOf(row, now).status == Approved
    ensures DispatchAfterToolApproval(w.hub.jobs, row.call.jobId, row.call.runnerId, row.call.leaseId, now).Ok?
  {
    var j := row.call.jobId;
    var s: Spec :| (j, s) in w.leases && s.leaseId == row.call.leaseId && row.authorization.value.expiresAt <= s.leaseExpiresAt;
    var p := (j, s);
    assert p in w.leases && LeaseOk(w, p.0, p.1);
  }

  lemma RowThrowsIffBlocked(w: World, row: Row)
    requires Inv(w) && RowOk(w, row.call.callId, row)
    ensures ReconcileRow(w.hub, row, w.clock).result.Err? <==> Blocked(w.hub.jobs, row, w.clock)
  {
    assert JobOk(w, row.call.jobId, w.hub.jobs.jobs[row.call.jobId]);
    if row.status == Approved && SamePendingJob(w.hub.jobs, row.call) && DecisionOf(row, w.clock).status == Approved {
      DispatchNeverThrows(w, row.call.callId, row, w.clock);
    }
  }

  lemma RowKeepsBlocked(h: Hub, row: Row, other: Row, now: Time)
    requires ReconcileRow(h, row, now).result.Ok?
    ensures Blocked(After(h, ReconcileRow(h, row, now).committed).jobs, other, now) <==> Blocked(h.jobs, other, now)
  {
  }

  lemma RowOkSurvives(w: World, w': World, row: Row)
    requires RowOk(w, row.call.callId, row) && TableExtends(w.hub.jobs, w'.hub.jobs)
    requires w.leases <= w'.leases && w.approvedCalls <= w'.approvedCalls
    ensures RowOk(w', row.call.callId, row)
  {
    assert JobExtends(w.hub.jobs, w.hub.jobs.jobs[row.call.jobId], w'.hub.jobs.jobs[row.call.jobId]);
  }

  lemma {:induction false} RecordAllGrows(w: World, hubs: seq<Hub>)
    ensures w.leases <= RecordAll(w, hubs).leases && RecordAll(w, hubs).approvedCalls == w.approvedCalls
    decreases |hubs|
  {
    if hubs != [] {
      RecordAllGrows(Record(w, hubs[0]), hubs[1..]);
    }
  }

  ghost predicate SomeBlocked(t: Table, rows: seq<Row>, now: Time) {
    exists i | 0 <= i < |rows| :: Blocked(t, rows[i], now)
  }

  ghost predicate RowsAreOk(w: World, rows: seq<Row>) {
    forall i | 0 <= i < |rows| :: RowOk(w, rows[i].call.callId, rows[i])
  }

  lemma SomeBlockedSplits(t: Table, rows: seq<Row>, now: Time)
    requires rows != []
    ensures SomeBlocked(t, rows, now) <==> Blocked(t, rows[0], now) || SomeBlocked(t, rows[1..], now)
  {
    if SomeBlocked(t, rows[1..], now) {
      var i :| 0 <= i < |rows[1..]| && Blocked(t, rows[1..][i], now);
      assert rows[1..][i] == rows[i + 1];
    }
    if SomeBlocked(t, rows, now) {
      var i :| 0 <= i < |rows| && Blocked(t, rows[i], now);
      if i > 0 { assert rows[1..][i - 1] == rows[i]; }
    }
  }

  /** One iteration neither blocks nor unblocks a row that is still to come. */
  lemma RestIsAsBefore(w: World, w': World, row: Row, rest: seq<Row>)
    requires RowsAreOk(w, rest) && TableExtends(w.hub.jobs, w'.hub.jobs)
    requires w.leases <= w'.leases && w.approvedCalls <= w'.approvedCalls
    requires ReconcileRow(w.hub, row, w.clock).result.Ok? && w'.hub == After(w.hub, ReconcileRow(w.hub, row, w.clock).committed)
    ensures RowsAreOk(w', rest) && (SomeBlocked(w'.hub.jobs, rest, w.clock) <==> SomeBlocked(w.hub.jobs, rest, w.clock))
  {
    forall i | 0 <= i < |rest|
      ensures RowOk(w', rest[i].call.callId, rest[i]) && (Blocked(w'.hub.jobs, rest[i], w.clock) <==> Blocked(w.hub.jobs, rest[i], w.clock))
    {
      RowOkSurvives(w, w', rest[i]);
      RowKeepsBlocked(w.hub, row, rest[i], w.clock);
    }
  }

  lemma {:induction false} LoopThrowsIffBlocked(w: World, rows: seq<Row>)
    requires Inv(w) && RowsAreOk(w, rows)
    ensures ReconcileRows(w.hub, rows, w.clock).result.Err? <==> SomeBlocked(w.hub.jobs, rows, w.clock)
    decreases |rows|
  {
    if rows != [] {
      var first := ReconcileRow(w.hub, rows[0], w.clock);
      RowThrowsIffBlocked(w, rows[0]);
      SomeBlockedSplits(w.hub.jobs, rows, w.clock);
      if first.result.Ok? {
        var w' := RecordAll(w, first.committed);
        AdvanceWorld(w, rows[0]);
        RestIsAsBefore(w, w', rows[0], rows[1..]);
        LoopThrowsIffBlocked(w', rows[1..]);
      }
    }
  }

  lemma AdvanceWorld(w: World, row: Row)
    requires Inv(w)
    ensures var w' := RecordAll(w, ReconcileRow(w.hub, row, w.clock).committed);
      && Inv(w') && Extends(w.hub, w'.hub) && w'.clock == w.clock
      && w'.hub == After(w.hub, ReconcileRow(w.hub, row, w.clock).committed)
      && w.leases <= w'.leases && w.approvedCalls <= w'.approvedCalls
  {
    var hubs := ReconcileRow(w.hub, row, w.clock).committed;
    ReconcileRowIsGood(w, row);
    assert hubs[..|hubs|] == hubs;
    GoodRunKeeps(w, hubs, |hubs|);
    RecordAllIs(w, hubs);
    RecordAllGrows(w, hubs);
  }

  /** From any database a run can leave, open throws exactly when some held call is blocked. */
  lemma OpenThrowsIffBlocked(clock: Time, steps: seq<Step>, rows: seq<Row>, now: Time)
    requires Reach(clock, steps).clock <= now && AllRows(Reach(clock, steps).hub.calls, rows)
    ensures var h := Reach(clock, steps).hub;
      ReconcileRows(h, rows, now).result.Err? <==> exists c :: c in h.calls && Blocked(h.jobs, h.calls[c], now)
  {
    ReachIsGood(clock, steps);
    var w := Reach(clock, steps);
    var w' := Noted(w, Reopen(rows), now);
    NotedKeepsInv(w, Reopen(rows), now);
    forall i | 0 <= i < |rows| ensures RowOk(w', rows[i].call.callId, rows[i]) {
      assert rows[i].call.callId in w'.hub.calls;
    }
    LoopThrowsIffBlocked(w', rows);
    forall c | c in w.hub.calls && Blocked(w.hub.jobs, w.hub.calls[c], now)
      ensures SomeBlocked(w.hub.jobs, rows, now)
    {
      var k :| 0 <= k < |rows| && rows[k].call.callId == c;
      assert Blocked(w.hub.jobs, rows[k], now);
    }
  }

  // ---- Such a database can be left behind ----

  const REQUEST: Request := Request(0, "workspace", Agent, "diagnose", "look", [])

  const CALL: Call := Call(9, 0, 7, 1, ServiceRestart, "", [0x3F], 0)

  function StateChange(sequence: nat, state: JobState): JobEvent {
    JobEvent(100 + sequence, 0, 7, 1, sequence, StateEvent(state))
  }

  /** The agent's Job after its first `n` events, the last of them to this state. */
  function JobAfter(n: nat, state: JobState): Job {
    Job(7, REQUEST, R0, state, Some(NewSpec(1, 0)), n - 1, 0)
  }

  const CREATED: Table := Table(map[0 := JobAfter(0, Dispatched)], map[0 := 0], map[], {}, 2)

  const RUNNING: Table := AcceptEvent(CREATED, StateChange(0, Running), 0).value.0

  const WAITING: Table := AcceptEvent(RUNNING, StateChange(1, WaitUser), 0).value.0

  lemma TablesOfTheRun()
    ensures Create(Table(map[], map[], map[], {}, 0), 7, REQUEST, 0, 0) == Ok((CREATED, 0))
    ensures AcceptEvent(CREATED, StateChange(0, Running), 0).Ok? && RUNNING.jobs == map[0 := JobAfter(1, Running)]
    ensures AcceptEvent(RUNNING, StateChange(1, WaitUser), 0).Ok? && WAITING.jobs == map[0 := JobAfter(2, WaitUser)]
  {
  }

  /** The Runner reports that its agent waits for the user, and still proposes a call above R0: the call is stored, then
      holding the Job throws. */
  const HELD_UNDER_WAIT_USER: seq<Step> := [
    Step(CreateJob(7, REQUEST, 0), 0, 1),
    Step(Accept(StateChange(0, Running)), 0, 1),
    Step(Accept(StateChange(1, WaitUser)), 0, 1),
    Step(EvaluateTool({}, CALL), 0, 1)]

  lemma FirstStep(w: World, s: Step, rest: seq<Step>)
    ensures RunAll(w, [s] + rest) == RunAll(Next(w, s), rest)
  {
    assert ([s] + rest)[1..] == rest;
  }

  lemma FourSteps(w: World, a: Step, b: Step, c: Step, d: Step)
    ensures RunAll(w, [a, b, c, d]) == Next(Next(Next(Next(w, a), b), c), d)
  {
    FirstStep(w, a, [b, c, d]);
    FirstStep(Next(w, a), b, [c, d]);
    FirstStep(Next(Next(w, a), b), c, [d]);
    FirstStep(Next(Next(Next(w, a), b), c), d, []);
    assert [a] + [b, c, d] == [a, b, c, d] && [b] + [c, d] == [b, c, d] && [c] + [d] == [c, d] && [d] + [] == [d];
  }

  lemma CallIsStored()
    ensures Commits(Hub(WAITING, map[]), EvaluateTool({}, CALL), 0) == [Hub(WAITING, map[9 := NewRow(CALL, Pending, None)])]
    ensures Blocked(WAITING, NewRow(CALL, Pending, None), 0)
  {
    TablesOfTheRun();
  }

  lemma JobSteps() returns (w: World)
    ensures w == Next(Next(Next(Fresh(0), HELD_UNDER_WAIT_USER[0]), HELD_UNDER_WAIT_USER[1]), HELD_UNDER_WAIT_USER[2])
    ensures w.hub == Hub(WAITING, map[]) && w.clock == 0
  {
    TablesOfTheRun();
    w := Fresh(0);
    HubAfterStep(w, HELD_UNDER_WAIT_USER[0], Hub(CREATED, map[]));
    w := Next(w, HELD_UNDER_WAIT_USER[0]);
    HubAfterStep(w, HELD_UNDER_WAIT_USER[1], Hub(RUNNING, map[]));
    w := Next(w, HELD_UNDER_WAIT_USER[1]);
    HubAfterStep(w, HELD_UNDER_WAIT_USER[2], Hub(WAITING, map[]));
    w := Next(w, HELD_UNDER_WAIT_USER[2]);
  }

  /** The next open throws on it. */
  lemma OpenCanThrow()
    ensures var h := Reach(0, HELD_UNDER_WAIT_USER).hub; 9 in h.calls && Blocked(h.jobs, h.calls[9], 0)
  {
    var w := JobSteps();
    CallIsStored();
    var last := HELD_UNDER_WAIT_USER[3];
    HubAfterStep(w, last, Hub(WAITING, map[9 := NewRow(CALL, Pending, None)]));
    FourSteps(Fresh(0), HELD_UNDER_WAIT_USER[0], HELD_UNDER_WAIT_USER[1], HELD_UNDER_WAIT_USER[2], last);
    assert Reach(0, HELD_UNDER_WAIT_USER) == Next(w, last);
  }

  // ---- And so can a held call that cannot be decided ----

  const READ: Call := Call(10, 0, 7, 1, FileRead, "", [0x3F], 0)

  const HOLDING: Hub := Hub(SetStatus(RUNNING, 0, WaitApproval), map[9 := NewRow(CALL, Pending, None)])

  const READING: Hub := Insert(HOLDING, NewRow(READ, Approved, Some(
    Authorization(10, 0, 7, 1, Sha256(READ), R0, "policy", 0, LEASE_MS))))

  /** A call above R0 is held, then an R0 call of the same lease is authorised at once, and the Hub restarts. */
  const HELD_THEN_READ: seq<Step> := [
    Step(CreateJob(7, REQUEST, 0), 0, 1),
    Step(Accept(StateChange(0, Running)), 0, 1),
    Step(EvaluateTool({}, CALL), 0, 2),
    Step(EvaluateTool({}, READ), 0, 1)]

  lemma CallIsHeld()
    ensures Commits(Hub(RUNNING, map[]), EvaluateTool({}, CALL), 0) == [Insert(Hub(RUNNING, map[]), NewRow(CALL, Pending, None)), HOLDING]
  {
    TablesOfTheRun();
  }

  lemma ReadIsAuthorized()
    ensures Commits(HOLDING, EvaluateTool({}, READ), 0) == [READING]
  {
    TablesOfTheRun();
  }

  lemma HeldThenRead()
    ensures Reach(0, HELD_THEN_READ).hub == READING && Reach(0, HELD_THEN_READ).clock == 0
  {
    TablesOfTheRun();
    CallIsHeld();
    ReadIsAuthorized();
    var w0 := Fresh(0);
    HubAfterStep(w0, HELD_THEN_READ[0], Hub(CREATED, map[]));
    var w1 := Next(w0, HELD_THEN_READ[0]);
    HubAfterStep(w1, HELD_THEN_READ[1], Hub(RUNNING, map[]));
    var w2 := Next(w1, HELD_THEN_READ[1]);
    HubAfterStep(w2, HELD_THEN_READ[2], HOLDING);
    var w3 := Next(w2, HELD_THEN_READ[2]);
    HubAfterStep(w3, HELD_THEN_READ[3], READING);
    FourSteps(w0, HELD_THEN_READ[0], HELD_THEN_READ[1], HELD_THEN_READ[2], HELD_THEN_READ[3]);
  }

  const OPENED: Hub := READING.(jobs := SetStatus(READING.jobs, 0, Dispatched))

  lemma OpeningRows()
    ensures 9 in READING.calls && ReconcileRow(READING, READING.calls[9], 0) == Run([READING], Ok(()))
    ensures 10 in READING.calls && ReconcileRow(READING, READING.calls[10], 0) == Run([OPENED], Ok(()))
  {
    TablesOfTheRun();
  }

  lemma OpeningReading()
    ensures var rows := [READING.calls[9], READING.calls[10]];
      AllRows(READING.calls, rows) && ReconcileRows(READING, rows, 0) == Run([READING, OPENED], Ok(()))
  {
    var rows := [READING.calls[9], READING.calls[10]];
    OpeningRows();
    assert forall c <- READING.calls :: c == rows[0].call.callId || c == rows[1].call.callId;
    assert rows[1..] == [READING.calls[10]] && rows[1..][1..] == [];
    assert ReconcileRows(READING, rows[1..], 0) == Run([OPENED], Ok(()));
    assert [READING] + [OPENED] == [READING, OPENED];
  }

  lemma ApprovingThrows(ownerId: string)
    ensures READING.calls.Keys == {9, 10} && OPENED.calls[9].status == Pending
    ensures 0 in OPENED.jobs.jobs && OPENED.jobs.jobs[0].status == Dispatched
    ensures ApproveCall(OPENED, 9, ownerId, 0).result == Err(NotBound)
  {
    TablesOfTheRun();
  }

  /** open returns, the call is still held, and approving it throws: dispatching the R0 call took its Job out of the wait. */
  lemma HeldCallCanBeUndecidable(ownerId: string)
    ensures var h := Reach(0, HELD_THEN_READ).hub;
      && h.calls.Keys == {9, 10} && AllRows(h.calls, [h.calls[9], h.calls[10]])
      && var run := ReconcileRows(h, [h.calls[9], h.calls[10]], 0);
         var h' := After(h, run.committed);
         && run.result == Ok(()) && 9 in h'.calls && h'.calls[9].status == Pending
         && 0 in h'.jobs.jobs && h'.jobs.jobs[0].status == Dispatched
         && ApproveCall(h', 9, ownerId, 0).result == Err(NotBound)
  {
    HeldThenRead();
    OpeningReading();
    ApprovingThrows(ownerId);
  }
}
