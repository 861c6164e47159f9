/** What the Hub promises over whole runs, from the empty database on. */
module HubGuarantees {
  import opened Jobs
  import opened NodeTools
  import opened HubRuns

  function Reach(clock: Time, steps: seq<Step>): World {
    RunAll(Fresh(clock), steps)
  }

  lemma ReachIsGood(clock: Time, steps: seq<Step>)
    ensures Inv(Reach(clock, steps))
  {
    FreshIsGood(clock);
    RunAllIsGood(Fresh(clock), steps);
  }

  // ---- Leases ----

  /** All leases ever signed for an agent Job cover disjoint intervals of time. */
  lemma AgentLeasesAreDisjoint(clock: Time, steps: seq<Step>, jobId: Id, s: Spec, s': Spec)
    requires var w := Reach(clock, steps);
      && (jobId, s) in w.leases && (jobId, s') in w.leases && s != s'
      && jobId in w.hub.jobs.jobs && w.hub.jobs.jobs[jobId].request.tool == Agent
    ensures Disjoint(s, s')
  {
    ReachIsGood(clock, steps);
    var w := Reach(clock, steps);
    assert JobOk(w, jobId, w.hub.jobs.jobs[jobId]);
    var p, q := (jobId, s), (jobId, s');
    assert p in w.leases && q in w.leases && p.1 != q.1;
  }

  lemma ApprovedIsCurrent(w: World, callId: Id, now: Time)
    requires Inv(w) && w.clock <= now && callId in w.hub.calls
    requires DecisionOf(w.hub.calls[callId], now).status == Approved
    ensures var call := w.hub.calls[callId].call;
      OnCurrentLease(w.hub.jobs, call) && now < w.hub.jobs.jobs[call.jobId].spec.value.leaseExpiresAt
  {
    var row := w.hub.calls[callId];
    var j := row.call.jobId;
    assert RowOk(w, callId, row);
    assert JobOk(w, j, w.hub.jobs.jobs[j]);
    var s: Spec :| (j, s) in w.leases && s.leaseId == row.call.leaseId && row.authorization.value.expiresAt <= s.leaseExpiresAt;
    var p := (j, s);
    assert p in w.leases && LeaseOk(w, p.0, p.1);
  }

  /** Whenever a decision reads APPROVED, the call's lease is its Job's current, unexpired lease. */
  lemma ApprovedDecisionIsInsideTheLease(clock: Time, steps: seq<Step>, callId: Id, now: Time)
    requires var w := Reach(clock, steps);
      w.clock <= now && callId in w.hub.calls && DecisionOf(w.hub.calls[callId], now).status == Approved
    ensures var w := Reach(clock, steps);
      var call := w.hub.calls[callId].call;
      OnCurrentLease(w.hub.jobs, call) && now < w.hub.jobs.jobs[call.jobId].spec.value.leaseExpiresAt
  {
    ReachIsGood(clock, steps);
    ApprovedIsCurrent(Reach(clock, steps), callId, now);
  }

  // ---- Fencing ----

  /** The lease was signed once, and the Job has another one now. */
  predicate Replaced(t: Table, jobId: Id, leaseId: Id) {
    jobId in t.jobs && t.jobs[jobId].spec.Some? && t.jobs[jobId].spec.value.leaseId != leaseId && leaseId < t.minted
  }

  predicate Ended(t: Table, jobId: Id) {
    jobId in t.jobs && Terminal(t.jobs[jobId].status)
  }

  lemma ReplacedForEver(w: World, steps: seq<Step>, jobId: Id, leaseId: Id)
    requires Inv(w)
    ensures Replaced(w.hub.jobs, jobId, leaseId) ==> Replaced(RunAll(w, steps).hub.jobs, jobId, leaseId)
    ensures Ended(w.hub.jobs, jobId) ==>
      Ended(RunAll(w, steps).hub.jobs, jobId) && RunAll(w, steps).hub.jobs.jobs[jobId].status == w.hub.jobs.jobs[jobId].status
  {
    RunAllIsGood(w, steps);
    if jobId in w.hub.jobs.jobs {
      assert JobExtends(w.hub.jobs, w.hub.jobs.jobs[jobId], RunAll(w, steps).hub.jobs.jobs[jobId]);
    }
  }

  /** The operation presents this lease of this Job. */
  predicate Presents(h: Hub, op: Op, jobId: Id, leaseId: Id) {
    match op
    case Accept(e) => e.jobId == jobId && e.leaseId == leaseId
    case ReconcileJob(j, _, l) => j == jobId && l == leaseId
    case EvaluateTool(_, call) => call.jobId == jobId && call.leaseId == leaseId
    case ApproveTool(callId, _) =>
      callId in h.calls && h.calls[callId].call.jobId == jobId && h.calls[callId].call.leaseId == leaseId
    case _ => false
  }

  /** Once a lease is replaced, no later request that presents it commits anything, and none sees it active. */
  lemma ReplacedLeaseIsPowerless(w: World, steps: seq<Step>, jobId: Id, leaseId: Id, op: Op, now: Time, runnerId: Id)
    requires Inv(w) && Replaced(w.hub.jobs, jobId, leaseId)
    ensures var h := RunAll(w, steps).hub;
      && (Presents(h, op, jobId, leaseId) ==> Commits(h, op, now) == [])
      && !ActiveLease(h.jobs, jobId, runnerId, leaseId, now)
  {
    ReplacedForEver(w, steps, jobId, leaseId);
  }

  /** Once a Job has ended, none of its leases is active again and its status never changes. */
  lemma EndedJobHasNoActiveLease(w: World, steps: seq<Step>, jobId: Id, leaseId: Id, now: Time, runnerId: Id)
    requires Inv(w) && Ended(w.hub.jobs, jobId)
    ensures var t := RunAll(w, steps).hub.jobs;
      jobId in t.jobs && t.jobs[jobId].status == w.hub.jobs.jobs[jobId].status && !ActiveLease(t, jobId, runnerId, leaseId, now)
  {
    ReplacedForEver(w, steps, jobId, leaseId);
  }

  // ---- The event log of a Job ----

  /** In every reachable state a Job's events are numbered exactly 0..lastSequence. */
  lemma EventsAreNumbered(clock: Time, steps: seq<Step>, jobId: Id, n: int)
    ensures var t := Reach(clock, steps).hub.jobs;
      && ((jobId, n) in t.events <==> jobId in t.jobs && 0 <= n <= t.jobs[jobId].lastSequence)
      && ((jobId, n) in t.events ==> t.events[(jobId, n)].jobId == jobId && t.events[(jobId, n)].sequence == n)
  {
    ReachIsGood(clock, steps);
  }

  lemma KnownEventCommitsTheSame(h: Hub, e: JobEvent, now: Time)
    requires EventsOk(h.jobs) && (e.jobId, e.sequence) in h.jobs.events && h.jobs.events[(e.jobId, e.sequence)] == e
    ensures After(h, Commits(h, Accept(e), now)) == h
  {
    assert e.jobId in h.jobs.jobs && e.sequence <= h.jobs.jobs[e.jobId].lastSequence;
  }

  /** An accepted event sent again, at any later time, changes nothing. */
  lemma ResentEventChangesNothing(w: World, steps: seq<Step>, e: JobEvent, now: Time)
    requires Inv(w) && (e.jobId, e.sequence) in w.hub.jobs.events && w.hub.jobs.events[(e.jobId, e.sequence)] == e
    ensures var h := RunAll(w, steps).hub; After(h, Commits(h, Accept(e), now)) == h
  {
    RunAllIsGood(w, steps);
    var t := RunAll(w, steps).hub.jobs;
    var k: (Id, int) := (e.jobId, e.sequence);
    assert k in t.events && t.events[k] == e;
    KnownEventCommitsTheSame(RunAll(w, steps).hub, e, now);
  }

  // ---- Approval precedes authority ----

  lemma {:induction false} ApprovalWasGiven(w: World, steps: seq<Step>)
    ensures forall j <- RunAll(w, steps).approvedJobs ::
      j in w.approvedJobs || exists i | 0 <= i < |steps| :: ApprovesJob(RunAll(w, steps[..i]), steps[i], j)
    ensures forall d <- RunAll(w, steps).approvedCalls ::
      d in w.approvedCalls || exists i | 0 <= i < |steps| :: GrantsCall(RunAll(w, steps[..i]), steps[i], d)
    decreases |steps|
  {
    if steps != [] {
      var w' := Next(w, steps[0]);
      var rest := steps[1..];
      ApprovalWasGiven(w', rest);
      assert RunAll(w, steps[..0]) == w;
      if Possible(w, steps[0]) && steps[0].commits > 0 {
        RecordKeepsApprovals(Noted(w, steps[0].op, steps[0].now), Commits(w.hub, steps[0].op, steps[0].now)[..steps[0].commits]);
      }
      forall i | 0 <= i < |rest| ensures RunAll(w', rest[..i]) == RunAll(w, steps[..i + 1]) && rest[i] == steps[i + 1] {
        assert steps[..i + 1][1..] == rest[..i];
      }
    }
  }

  lemma {:induction false} RecordKeepsApprovals(w: World, hubs: seq<Hub>)
    ensures RecordAll(w, hubs).approvedJobs == w.approvedJobs && RecordAll(w, hubs).approvedCalls == w.approvedCalls
    decreases |hubs|
  {
    if hubs != [] {
      RecordKeepsApprovals(Record(w, hubs[0]), hubs[1..]);
    }
  }

  predicate ApprovesJob(w: World, s: Step, jobId: Id) {
    s.op == ApproveJob(jobId) && Possible(w, s) && s.commits > 0
  }

  predicate GrantsCall(w: World, s: Step, digest: Digest) {
    && s.op.ApproveTool? && Possible(w, s) && s.commits > 0 && Grants(w.hub, s.op.callId, s.op.ownerId, s.now)
    && w.hub.calls[s.op.callId].digest == digest
  }

  /** No spec was ever signed for an R1 Job before that Job was approved. */
  lemma SignedR1JobWasApproved(clock: Time, steps: seq<Step>, jobId: Id, s: Spec)
    requires var w := Reach(clock, steps);
      (jobId, s) in w.leases && jobId in w.hub.jobs.jobs && w.hub.jobs.jobs[jobId].risk == R1
    ensures exists i | 0 <= i < |steps| :: ApprovesJob(Reach(clock, steps[..i]), steps[i], jobId)
  {
    ReachIsGood(clock, steps);
    var w := Reach(clock, steps);
    var p := (jobId, s);
    assert LeaseOk(w, p.0, p.1);
    assert JobOk(w, jobId, w.hub.jobs.jobs[jobId]);
    ApprovalWasGiven(Fresh(clock), steps);
  }

  /** No authorisation was ever signed for a call above R0 before the Owner granted that exact call. */
  lemma SignedAuthorizationWasGranted(clock: Time, steps: seq<Step>, a: Authorization)
    requires a in Reach(clock, steps).authorizations && a.risk != R0
    ensures exists i | 0 <= i < |steps| :: GrantsCall(Reach(clock, steps[..i]), steps[i], a.digest)
    ensures a.digest.call.callId == a.callId && RiskOf(a.digest.call.name) == a.risk
  {
    ReachIsGood(clock, steps);
    assert AuthorizationOk(Reach(clock, steps), a);
    ApprovalWasGiven(Fresh(clock), steps);
  }

  /** What a Runner pulls for an R1 Job was approved. */
  lemma PulledR1JobWasApproved(clock: Time, steps: seq<Step>, runnerId: Id, jobId: Id, now: Time)
    requires var t := Reach(clock, steps).hub.jobs;
      OldestDispatched(t, runnerId, jobId) && t.jobs[jobId].risk == R1 && Pull(t, jobId, now).Ok?
    ensures exists i | 0 <= i < |steps| :: ApprovesJob(Reach(clock, steps[..i]), steps[i], jobId)
  {
    ReachIsGood(clock, steps);
    var w := Reach(clock, steps);
    assert JobOk(w, jobId, w.hub.jobs.jobs[jobId]);
    ApprovalWasGiven(Fresh(clock), steps);
  }

  /** A call keeps its content, and its status only moves from held over approved to denied. */
  lemma CallStatusMovesForward(w: World, steps: seq<Step>, callId: Id)
    requires Inv(w) && callId in w.hub.calls
    ensures var (row, calls') := (w.hub.calls[callId], RunAll(w, steps).hub.calls);
      callId in calls' && SameCall(row, calls'[callId]) && Rank(row.status) <= Rank(calls'[callId].status)
  {
    RunAllIsGood(w, steps);
  }
}
