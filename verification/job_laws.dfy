/** What each Job transaction does, and what follows over runs for leases and for how Jobs end. */
module JobLaws {
  import opened Wrappers
  import opened Jobs
  import opened NodeTools
  import opened HubRuns
  import opened HubGuarantees

  // ---- Terms of a lease ----

  /** Signed at this time: five minutes to renew it, one hour for the work. */
  predicate SignedAt(s: Spec, now: Time) {
    s.leaseExpiresAt == now + 300_000 && s.expiresAt == now + 3_600_000
  }

  /** Nothing but this Job differs. */
  predicate OnlyJobDiffers(t: Table, t': Table, jobId: Id) {
    && jobId in t'.jobs && t'.jobs == t.jobs[jobId := t'.jobs[jobId]]
    && t'.byKey == t.byKey && t'.events == t.events && t'.eventIds == t.eventIds
  }

  /** The Job goes to the Runner again under a lease of its own, which nobody has seen before. */
  predicate Reissued(t: Table, t': Table, jobId: Id, now: Time) {
    && OnlyJobDiffers(t, t', jobId) && jobId in t.jobs && t'.minted == t.minted + 1
    && t'.jobs[jobId].spec.Some? && t'.jobs[jobId].spec.value.leaseId == t.minted && SignedAt(t'.jobs[jobId].spec.value, now)
    && t'.jobs[jobId] == t.jobs[jobId].(status := Dispatched, spec := t'.jobs[jobId].spec)
  }

  /** The Job has this status now. */
  predicate StatusIs(t: Table, t': Table, jobId: Id, status: JobState) {
    OnlyJobDiffers(t, t', jobId) && t'.minted == t.minted && jobId in t.jobs && t'.jobs[jobId] == t.jobs[jobId].(status := status)
  }

  predicate IsCurrent(t: Table, jobId: Id, runnerId: Id, leaseId: Id) {
    && jobId in t.jobs && t.jobs[jobId].runnerId == runnerId
    && t.jobs[jobId].spec.Some? && t.jobs[jobId].spec.value.leaseId == leaseId
  }

  // ---- Creation and approval ----

  /** A new key gets a new Job as requested. An agent Job goes to its Runner at once, any other one waits for the Owner. */
  lemma NewKeyMakesAJob(t: Table, runnerId: Id, request: Request, createdAt: Time, now: Time)
    requires request.idempotencyKey !in t.byKey && forall j <- t.jobs :: j < t.minted
    ensures var r := Create(t, runnerId, request, createdAt, now);
      && r.Ok?
      && var (t', jobId) := r.value;
         && jobId !in t.jobs && jobId in t'.jobs && t'.jobs == t.jobs[jobId := t'.jobs[jobId]]
         && t'.byKey == t.byKey[request.idempotencyKey := jobId] && t'.events == t.events && t'.eventIds == t.eventIds
         && var job := t'.jobs[jobId];
            && job.runnerId == runnerId && job.request == request && job.lastSequence == -1 && job.createdAt == createdAt
            && (forall j <- t'.jobs :: j < t'.minted) && t.minted < t'.minted
            && if request.tool == Agent
               then
                 && job.risk == R0 && job.status == Dispatched && job.spec.Some? && SignedAt(job.spec.value, now)
                 && t.minted <= job.spec.value.leaseId < t'.minted && job.spec.value.leaseId != jobId
               else job.risk == R1 && job.status == WaitApproval && job.spec.None?
  {
  }

  /** A used key answers with its Job, or refuses another Runner or another request; neither changes anything. */
  lemma UsedKeyAnswers(w: World, runnerId: Id, request: Request, createdAt: Time, now: Time)
    requires Inv(w) && request.idempotencyKey in w.hub.jobs.byKey
    ensures var (t, r) := (w.hub.jobs, Create(w.hub.jobs, runnerId, request, createdAt, now));
      var jobId := t.byKey[request.idempotencyKey];
      && jobId in t.jobs && t.jobs[jobId].request.idempotencyKey == request.idempotencyKey
      && (r.Ok? <==> t.jobs[jobId].runnerId == runnerId && t.jobs[jobId].request == request)
      && (r.Ok? ==> r.value == (t, jobId))
  {
    assert KeysOk(w.hub.jobs);
  }

  /** The Owner's approval reissues exactly the R1 Jobs that wait for it. */
  lemma ApprovedIff(t: Table, jobId: Id, now: Time)
    ensures var r := Jobs.Approve(t, jobId, now);
      && (r.Ok? <==> jobId in t.jobs && t.jobs[jobId].risk == R1 && t.jobs[jobId].status == WaitApproval)
      && (r.Ok? ==> Reissued(t, r.value, jobId, now))
  {
  }

  /** A Job that has not ended is cancelled, whatever it does. */
  lemma CancelledIff(t: Table, jobId: Id)
    ensures var r := Cancel(t, jobId);
      && (r.Ok? <==> jobId in t.jobs && t.jobs[jobId].status !in {Succeeded, Failed, Cancelled})
      && (r.Ok? ==> StatusIs(t, r.value, jobId, Cancelled))
  {
  }

  // ---- Pulling and recovering ----

  /** What a Runner pulls is its longest waiting Job, under a lease that has not run out: the Job's own one while that lasts,
      else a new one. In every reachable state a pull of such a Job succeeds. */
  lemma PulledLeaseIsLive(clock: Time, steps: seq<Step>, runnerId: Id, jobId: Id, now: Time)
    requires OldestDispatched(Reach(clock, steps).hub.jobs, runnerId, jobId)
    ensures var (t, r) := (Reach(clock, steps).hub.jobs, Pull(Reach(clock, steps).hub.jobs, jobId, now));
      && r.Ok? && jobId in t.jobs && jobId in r.value.jobs && t.jobs[jobId].spec.Some? && r.value.jobs[jobId].spec.Some?
      && t.jobs[jobId].runnerId == runnerId && t.jobs[jobId].status == r.value.jobs[jobId].status == Dispatched
      && (forall j <- t.jobs | t.jobs[j].runnerId == runnerId && t.jobs[j].status == Dispatched ::
            t.jobs[jobId].createdAt <= t.jobs[j].createdAt)
      && now < r.value.jobs[jobId].spec.value.leaseExpiresAt
      && (if now < t.jobs[jobId].spec.value.leaseExpiresAt then r.value == t else Reissued(t, r.value, jobId, now))
  {
    ReachIsGood(clock, steps);
    assert JobOk(Reach(clock, steps), jobId, Reach(clock, steps).hub.jobs.jobs[jobId]);
  }

  /** A Runner that comes back asks for its agent Job. An ended Job is discarded and a held one held; a dispatched one is ready,
      and so is a running one under the lease it presents, which is reissued when that lease has run out. */
  lemma RecoveredAs(clock: Time, steps: seq<Step>, jobId: Id, runnerId: Id, leaseId: Id, now: Time)
    requires var t := Reach(clock, steps).hub.jobs; jobId in t.jobs && t.jobs[jobId].runnerId == runnerId && t.jobs[jobId].request.tool == Agent
    ensures var (t, r) := (Reach(clock, steps).hub.jobs, RecoverAgent(Reach(clock, steps).hub.jobs, jobId, runnerId, leaseId, now));
      var status := t.jobs[jobId].status;
      && t.jobs[jobId].spec.Some?
      && (r.Ok? <==>
            status in {Succeeded, Failed, Cancelled, WaitApproval, Dispatched}
            || (status == Running && t.jobs[jobId].spec.value.leaseId == leaseId))
      && (r.Ok? ==>
            && (r.value.1 == Discard <==> status in {Succeeded, Failed, Cancelled})
            && (r.value.1 == Hold <==> status == WaitApproval)
            && if status != Running then r.value.0 == t
               else if now < t.jobs[jobId].spec.value.leaseExpiresAt then StatusIs(t, r.value.0, jobId, Dispatched)
               else Reissued(t, r.value.0, jobId, now))
  {
    ReachIsGood(clock, steps);
    assert JobOk(Reach(clock, steps), jobId, Reach(clock, steps).hub.jobs.jobs[jobId]);
  }

  /** Nobody else's Job, and no Job of a sandboxed tool, is recovered. */
  lemma OnlyOwnAgentIsRecovered(t: Table, jobId: Id, runnerId: Id, leaseId: Id, now: Time)
    requires RecoverAgent(t, jobId, runnerId, leaseId, now).Ok?
    ensures jobId in t.jobs && t.jobs[jobId].runnerId == runnerId && t.jobs[jobId].request.tool == Agent
  {
  }

  /** The Runner's agent Job is under its current lease. */
  predicate IsCurrentAgent(t: Table, jobId: Id, runnerId: Id, leaseId: Id) {
    IsCurrent(t, jobId, runnerId, leaseId) && t.jobs[jobId].request.tool == Agent
  }

  /** A call holds its Job exactly while the lease runs and the Job is dispatched, running or held already. */
  lemma HeldIff(t: Table, jobId: Id, runnerId: Id, leaseId: Id, now: Time)
    ensures var r := WaitForToolApproval(t, jobId, runnerId, leaseId, now);
      && (r.Ok? <==>
            && IsCurrentAgent(t, jobId, runnerId, leaseId) && now < t.jobs[jobId].spec.value.leaseExpiresAt
            && t.jobs[jobId].status in {WaitApproval, Dispatched, Running})
      && (r.Ok? ==> StatusIs(t, r.value, jobId, WaitApproval))
  {
  }

  /** An approved call lets its held Job go on exactly while the lease runs. */
  lemma ReleasedIff(t: Table, jobId: Id, runnerId: Id, leaseId: Id, now: Time)
    ensures var r := DispatchAfterToolApproval(t, jobId, runnerId, leaseId, now);
      && (r.Ok? <==>
            && IsCurrentAgent(t, jobId, runnerId, leaseId) && now < t.jobs[jobId].spec.value.leaseExpiresAt
            && t.jobs[jobId].status == WaitApproval)
      && (r.Ok? ==> StatusIs(t, r.value, jobId, Dispatched))
  {
  }

  /** A denied call lets its held Job go on in any case, under a new lease when the old one has run out. */
  lemma ReleasedAfterDenialIff(t: Table, jobId: Id, runnerId: Id, leaseId: Id, now: Time)
    ensures var r := RedispatchAfterDeniedToolCall(t, jobId, runnerId, leaseId, now);
      && (r.Ok? <==> IsCurrentAgent(t, jobId, runnerId, leaseId) && t.jobs[jobId].status == WaitApproval)
      && (r.Ok? ==>
            if now < t.jobs[jobId].spec.value.leaseExpiresAt then StatusIs(t, r.value, jobId, Dispatched)
            else Reissued(t, r.value, jobId, now))
  {
  }

  /** A Runner that lost track asks to reconcile: under its current lease, up to the very end of it, a Job that was dispatched or
      running reconciles, and any other stays as it is. */
  lemma ReconciledIff(t: Table, jobId: Id, runnerId: Id, leaseId: Id, now: Time)
    ensures var r := Reconcile(t, jobId, runnerId, leaseId, now);
      && (r.Ok? <==> IsCurrent(t, jobId, runnerId, leaseId) && now <= t.jobs[jobId].spec.value.leaseExpiresAt)
      && (r.Ok? ==> if t.jobs[jobId].status in {Dispatched, Running} then StatusIs(t, r.value, jobId, Reconciling) else r.value == t)
  {
  }

  // ---- Events ----

  /** From which states a Runner's report may lead to each state. */
  const CAME_FROM: map<JobState, set<JobState>> := map[
    New := {},
    Planning := {New},
    WaitApproval := {Planning, Running},
    Dispatched := {Planning, WaitApproval},
    Running := {WaitApproval, Dispatched, WaitUser, Reconciling},
    WaitUser := {Running},
    Unknown := {Dispatched, Running, WaitUser, Reconciling},
    Reconciling := {Running, Unknown},
    Succeeded := {Running, Reconciling},
    Failed := {Planning, Running, Reconciling},
    Cancelled := {New, Planning, WaitApproval, Dispatched, Running, WaitUser, Unknown, Reconciling}]

  lemma MovesAreListed(from: JobState, to: JobState)
    ensures to in CAME_FROM && (to in AllowedNext(from) <==> from in CAME_FROM[to])
  {
  }

  predicate IsPresented(t: Table, e: JobEvent, now: Time) {
    IsCurrent(t, e.jobId, e.runnerId, e.leaseId) && now <= t.jobs[e.jobId].spec.value.leaseExpiresAt
  }

  /** A new event is taken exactly when it is the next one under the current lease, its id is new, and it reports no impossible
      move. Then it is stored, and the Job is where it says. */
  lemma EventIsTakenIff(t: Table, e: JobEvent, now: Time)
    ensures var r := AcceptEvent(t, e, now);
      && (r.Ok? && !r.value.1 <==>
            && IsPresented(t, e, now) && e.sequence == t.jobs[e.jobId].lastSequence + 1 && e.eventId !in t.eventIds
            && (e.body.StateEvent? ==> e.body.state in CAME_FROM && t.jobs[e.jobId].status in CAME_FROM[e.body.state]))
      && (r.Ok? && !r.value.1 ==>
            var (t', job) := (r.value.0, t.jobs[e.jobId]);
            && t'.events == t.events[(e.jobId, e.sequence) := e] && t'.eventIds == t.eventIds + {e.eventId}
            && t'.byKey == t.byKey && t'.minted == t.minted
            && t'.jobs == t.jobs[e.jobId :=
                 job.(lastSequence := e.sequence, status := if e.body.StateEvent? then e.body.state else job.status)])
  {
    if e.body.StateEvent? && e.jobId in t.jobs { MovesAreListed(t.jobs[e.jobId].status, e.body.state); }
  }

  /** An event that came before is recognised exactly when it is the stored one, under the current lease, and changes nothing. */
  lemma EventIsKnownIff(t: Table, e: JobEvent, now: Time)
    requires EventsOk(t)
    ensures var r := AcceptEvent(t, e, now);
      && (r.Ok? && r.value.1 <==> IsPresented(t, e, now) && (e.jobId, e.sequence) in t.events && t.events[(e.jobId, e.sequence)] == e)
      && (r.Ok? && r.value.1 ==> r.value.0 == t)
  {
  }

  // ---- Over runs ----

  predicate Reported(t: Table, jobId: Id, status: JobState) {
    exists k <- t.events :: k.0 == jobId && t.events[k].jobId == jobId && t.events[k].body == StateEvent(status)
  }

  /** A Job has its spec from before or one signed now, and has not come to succeed or fail unless its Runner reported so. */
  ghost predicate JobGoesOn(t: Table, t': Table, jobId: Id, now: Time) {
    jobId in t'.jobs ==>
      && var job := t'.jobs[jobId];
         && (job.spec.Some? ==> (jobId in t.jobs && t.jobs[jobId].spec == job.spec) || SignedAt(job.spec.value, now))
         && (job.status in {Succeeded, Failed} ==>
               (jobId in t.jobs && t.jobs[jobId].status == job.status) || Reported(t', jobId, job.status))
  }

  ghost predicate GoesOn(t: Table, t': Table, now: Time) {
    && (forall k <- t.events :: k in t'.events && t'.events[k] == t.events[k])
    && forall j <- t'.jobs :: JobGoesOn(t, t', j, now)
  }

  lemma ReportStays(t: Table, t': Table, jobId: Id, status: JobState)
    requires Reported(t, jobId, status) && forall k <- t.events :: k in t'.events && t'.events[k] == t.events[k]
    ensures Reported(t', jobId, status)
  {
    var k :| k in t.events && k.0 == jobId && t.events[k].jobId == jobId && t.events[k].body == StateEvent(status);
    assert t'.events[k] == t.events[k];
  }

  lemma GoesOnTrans(a: Table, b: Table, c: Table, now: Time)
    requires GoesOn(a, b, now) && GoesOn(b, c, now)
    ensures GoesOn(a, c, now)
  {
    forall j <- c.jobs ensures JobGoesOn(a, c, j, now) {
      assert JobGoesOn(b, c, j, now);
      if j in b.jobs {
        assert JobGoesOn(a, b, j, now);
        if b.jobs[j].status in {Succeeded, Failed} && Reported(b, j, b.jobs[j].status) { ReportStays(b, c, j, b.jobs[j].status); }
      }
    }
  }

  lemma SameGoesOn(t: Table, now: Time)
    ensures GoesOn(t, t, now)
  {
  }

  lemma StatusGoesOn(t: Table, jobId: Id, status: JobState, now: Time)
    requires jobId in t.jobs && status !in {Succeeded, Failed}
    ensures GoesOn(t, SetStatus(t, jobId, status), now)
  {
  }

  lemma SignGoesOn(t: Table, jobId: Id, now: Time)
    requires jobId in t.jobs
    ensures GoesOn(t, Sign(t, jobId, now), now)
  {
  }

  lemma CreateGoesOn(t: Table, runnerId: Id, request: Request, createdAt: Time, now: Time)
    requires Create(t, runnerId, request, createdAt, now).Ok?
    ensures GoesOn(t, Create(t, runnerId, request, createdAt, now).value.0, now)
  {
  }

  lemma AcceptGoesOn(t: Table, e: JobEvent, now: Time)
    requires EventsOk(t) && AcceptEvent(t, e, now).Ok?
    ensures GoesOn(t, AcceptEvent(t, e, now).value.0, now)
  {
    var t' := AcceptEvent(t, e, now).value.0;
    if t' != t {
      assert t'.events[(e.jobId, e.sequence)] == e;
      forall k <- t.events ensures k in t'.events && t'.events[k] == t.events[k] { assert k != (e.jobId, e.sequence); }
      forall j <- t'.jobs ensures JobGoesOn(t, t', j, now) {
        if j == e.jobId && e.body.StateEvent? { assert Reported(t', j, e.body.state); }
      }
    }
  }

  /** Each of the hubs goes on from this table. */
  ghost predicate AllGoOn(t: Table, hubs: seq<Hub>, now: Time) {
    forall i | 0 <= i < |hubs| :: GoesOn(t, hubs[i].jobs, now)
  }

  lemma WaitGoesOn(t: Table, jobId: Id, runnerId: Id, leaseId: Id, now: Time)
    ensures var r := WaitForToolApproval(t, jobId, runnerId, leaseId, now); r.Ok? ==> GoesOn(t, r.value, now)
  {
    SameGoesOn(t, now);
    if jobId in t.jobs { StatusGoesOn(t, jobId, WaitApproval, now); }
  }

  lemma DispatchGoesOn(t: Table, jobId: Id, runnerId: Id, leaseId: Id, now: Time)
    ensures var r := DispatchAfterToolApproval(t, jobId, runnerId, leaseId, now); r.Ok? ==> GoesOn(t, r.value, now)
    ensures var r := RedispatchAfterDeniedToolCall(t, jobId, runnerId, leaseId, now); r.Ok? ==> GoesOn(t, r.value, now)
  {
    if jobId in t.jobs {
      StatusGoesOn(t, jobId, Dispatched, now);
      SignGoesOn(t, jobId, now);
    }
  }

  lemma ThenJobsGoesOn<T>(t: Table, h: Hub, committed: seq<Hub>, update: Result<Table, Refusal>, value: T, now: Time)
    requires AllGoOn(t, committed, now) && (update.Ok? ==> GoesOn(t, update.value, now))
    ensures AllGoOn(t, ThenJobs(h, committed, update, value).committed, now)
  {
  }

  lemma EvaluateGoesOn(h: Hub, unavailable: set<ToolName>, call: Call, now: Time)
    ensures AllGoOn(h.jobs, Evaluate(h, unavailable, call, now).committed, now)
  {
    SameGoesOn(h.jobs, now);
    WaitGoesOn(h.jobs, call.jobId, call.runnerId, call.leaseId, now);
  }

  lemma ApproveCallGoesOn(h: Hub, callId: Id, ownerId: string, now: Time)
    ensures AllGoOn(h.jobs, ApproveCall(h, callId, ownerId, now).committed, now)
  {
    SameGoesOn(h.jobs, now);
    if callId in h.calls {
      var call := h.calls[callId].call;
      DispatchGoesOn(h.jobs, call.jobId, call.runnerId, call.leaseId, now);
    }
  }

  lemma RowGoesOn(h: Hub, row: Row, now: Time)
    ensures AllGoOn(h.jobs, ReconcileRow(h, row, now).committed, now)
  {
    SameGoesOn(h.jobs, now);
    WaitGoesOn(h.jobs, row.call.jobId, row.call.runnerId, row.call.leaseId, now);
    DispatchGoesOn(h.jobs, row.call.jobId, row.call.runnerId, row.call.leaseId, now);
  }

  lemma AllGoOnAppend(t: Table, t': Table, first: seq<Hub>, rest: seq<Hub>, now: Time)
    requires AllGoOn(t, first, now) && AllGoOn(t', rest, now) && GoesOn(t, t', now)
    ensures AllGoOn(t, first + rest, now)
  {
    forall i | 0 <= i < |rest| ensures GoesOn(t, rest[i].jobs, now) { GoesOnTrans(t, t', rest[i].jobs, now); }
  }

  lemma {:induction false} RowsGoOn(h: Hub, rows: seq<Row>, now: Time)
    ensures AllGoOn(h.jobs, ReconcileRows(h, rows, now).committed, now)
    decreases |rows|
  {
    if rows != [] {
      var first := ReconcileRow(h, rows[0], now);
      RowGoesOn(h, rows[0], now);
      if first.result.Ok? {
        var h' := After(h, first.committed);
        SameGoesOn(h.jobs, now);
        assert GoesOn(h.jobs, h'.jobs, now);
        RowsGoOn(h', rows[1..], now);
        AllGoOnAppend(h.jobs, h'.jobs, first.committed, ReconcileRows(h', rows[1..], now).committed, now);
      }
    }
  }

  lemma JobCommitsGoOn(h: Hub, op: Op, now: Time)
    requires EventsOk(h.jobs) && !op.EvaluateTool? && !op.ApproveTool? && !op.Reopen?
    ensures AllGoOn(h.jobs, Commits(h, op, now), now)
  {
    var t := h.jobs;
    SameGoesOn(t, now);
    match op
    case CreateJob(runnerId, request, createdAt) =>
      if Create(t, runnerId, request, createdAt, now).Ok? { CreateGoesOn(t, runnerId, request, createdAt, now); }
    case ApproveJob(jobId) => if jobId in t.jobs { SignGoesOn(t, jobId, now); }
    case PullJob(_, jobId) => if jobId in t.jobs { SignGoesOn(t, jobId, now); }
    case Recover(jobId, _, _) =>
      if jobId in t.jobs {
        SignGoesOn(t, jobId, now);
        StatusGoesOn(t, jobId, Dispatched, now);
      }
    case Accept(e) => if AcceptEvent(t, e, now).Ok? { AcceptGoesOn(t, e, now); }
    case ReconcileJob(jobId, _, _) => if jobId in t.jobs { StatusGoesOn(t, jobId, Reconciling, now); }
    case CancelJob(jobId) => if jobId in t.jobs { StatusGoesOn(t, jobId, Cancelled, now); }
  }

  lemma CommitsGoOn(h: Hub, op: Op, now: Time)
    requires EventsOk(h.jobs)
    ensures AllGoOn(h.jobs, Commits(h, op, now), now)
  {
    match op
    case EvaluateTool(unavailable, call) => EvaluateGoesOn(h, unavailable, call, now);
    case ApproveTool(callId, ownerId) => ApproveCallGoesOn(h, callId, ownerId, now);
    case Reopen(rows) => RowsGoOn(h, rows, now);
    case _ => JobCommitsGoOn(h, op, now);
  }

  /** Whoever succeeded or failed has reported so. */
  ghost predicate EndsReported(t: Table) {
    forall j <- t.jobs | t.jobs[j].status in {Succeeded, Failed} :: Reported(t, j, t.jobs[j].status)
  }

  lemma GoingOnKeepsReports(t: Table, t': Table, now: Time)
    requires EndsReported(t) && GoesOn(t, t', now)
    ensures EndsReported(t')
  {
    forall j <- t'.jobs | t'.jobs[j].status in {Succeeded, Failed} ensures Reported(t', j, t'.jobs[j].status) {
      assert JobGoesOn(t, t', j, now);
      if j in t.jobs && t.jobs[j].status == t'.jobs[j].status { ReportStays(t, t', j, t.jobs[j].status); }
    }
  }

  /** The specs in the table are known, and each lease that is new was signed now. */
  ghost predicate LeasesAre(leases: set<(Id, Spec)>, before: set<(Id, Spec)>, now: Time) {
    forall p <- leases :: p in before || SignedAt(p.1, now)
  }

  lemma RecordedLeases(w: World, t: Table, h: Hub, leases: set<(Id, Spec)>, now: Time)
    requires GoesOn(t, h.jobs, now) && LeasesIn(t) <= leases && LeasesAre(w.leases, leases, now)
    ensures LeasesAre(Record(w, h).leases, leases, now)
  {
    forall p <- LeasesIn(h.jobs) ensures p in leases || SignedAt(p.1, now) {
      assert JobGoesOn(t, h.jobs, p.0, now);
      if p.0 in t.jobs && t.jobs[p.0].spec == h.jobs.jobs[p.0].spec { assert p in LeasesIn(t); }
    }
  }

  lemma {:induction false} RecordAllGoesOn(w: World, t: Table, hubs: seq<Hub>, leases: set<(Id, Spec)>, now: Time)
    requires AllGoOn(t, hubs, now) && GoesOn(t, w.hub.jobs, now) && LeasesIn(t) <= leases && LeasesAre(w.leases, leases, now)
    ensures GoesOn(t, RecordAll(w, hubs).hub.jobs, now) && LeasesAre(RecordAll(w, hubs).leases, leases, now)
    decreases |hubs|
  {
    if hubs != [] {
      RecordedLeases(w, t, hubs[0], leases, now);
      RecordAllGoesOn(Record(w, hubs[0]), t, hubs[1..], leases, now);
    }
  }

  lemma CurrentLeasesAreNoted(w: World)
    requires Inv(w)
    ensures LeasesIn(w.hub.jobs) <= w.leases
  {
    forall j <- w.hub.jobs.jobs ensures JobOk(w, j, w.hub.jobs.jobs[j]) {}
  }

  lemma NextGoesOn(w: World, s: Step)
    requires Inv(w)
    ensures GoesOn(w.hub.jobs, Next(w, s).hub.jobs, s.now) && LeasesAre(Next(w, s).leases, w.leases, s.now)
  {
    SameGoesOn(w.hub.jobs, s.now);
    if Possible(w, s) && s.commits > 0 {
      CommitsGoOn(w.hub, s.op, s.now);
      CurrentLeasesAreNoted(w);
      RecordAllGoesOn(Noted(w, s.op, s.now), w.hub.jobs, Commits(w.hub, s.op, s.now)[..s.commits], w.leases, s.now);
    }
  }

  lemma {:induction false} RunKeepsReports(w: World, steps: seq<Step>)
    requires Inv(w) && EndsReported(w.hub.jobs)
    ensures EndsReported(RunAll(w, steps).hub.jobs)
    decreases |steps|
  {
    if steps != [] {
      NextGoesOn(w, steps[0]);
      HubRuns.NextIsGood(w, steps[0]);
      GoingOnKeepsReports(w.hub.jobs, Next(w, steps[0]).hub.jobs, steps[0].now);
      RunKeepsReports(Next(w, steps[0]), steps[1..]);
    }
  }

  /** No Job ever succeeds or fails unless an event of its own that says so is stored. */
  lemma EndWasReported(clock: Time, steps: seq<Step>, jobId: Id)
    requires var t := Reach(clock, steps).hub.jobs; jobId in t.jobs && t.jobs[jobId].status in {Succeeded, Failed}
    ensures var t := Reach(clock, steps).hub.jobs; Reported(t, jobId, t.jobs[jobId].status)
  {
    FreshIsGood(clock);
    RunKeepsReports(Fresh(clock), steps);
  }

  lemma {:induction false} RunSignsLeases(w: World, steps: seq<Step>, p: (Id, Spec))
    requires Inv(w) && p in RunAll(w, steps).leases
    ensures p in w.leases || exists i | 0 <= i < |steps| :: SignedAt(p.1, steps[i].now)
    decreases |steps|
  {
    if steps != [] {
      var w' := Next(w, steps[0]);
      NextGoesOn(w, steps[0]);
      HubRuns.NextIsGood(w, steps[0]);
      RunSignsLeases(w', steps[1..], p);
      if p !in w'.leases {
        var i :| 0 <= i < |steps[1..]| && SignedAt(p.1, steps[1..][i].now);
        assert steps[i + 1] == steps[1..][i];
      }
    }
  }

  /** Every lease ever signed runs for five minutes from a step of the run, and its spec for one hour. */
  lemma LeaseHasItsTerms(clock: Time, steps: seq<Step>, jobId: Id, s: Spec)
    requires (jobId, s) in Reach(clock, steps).leases
    ensures exists i | 0 <= i < |steps| :: SignedAt(s, steps[i].now)
  {
    FreshIsGood(clock);
    RunSignsLeases(Fresh(clock), steps, (jobId, s));
  }
}
