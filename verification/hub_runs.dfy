/**
 Runs of the Hub: any sequence of requests, restarts and crashes, under a clock that
 does not go back. A crash is an operation of which only some commits happened.

 `Good` says of one commit that it keeps the invariant and takes nothing back. Each kind
 of commit is shown to be good by itself: a Job rewritten, a Job added, a call row
 written. An operation is a sequence of such commits, so any beginning of it is good, and
 so is any run.
 */
module HubRuns {
  import opened Wrappers
  import opened Jobs
  import opened NodeTools

  datatype Op =
    | CreateJob(runnerId: Id, request: Request, createdAt: Time)
    | ApproveJob(jobId: Id)
    | PullJob(runnerId: Id, jobId: Id)
    | Recover(jobId: Id, runnerId: Id, leaseId: Id)
    | Accept(event: JobEvent)
    | ReconcileJob(jobId: Id, runnerId: Id, leaseId: Id)
    | CancelJob(jobId: Id)
    | EvaluateTool(unavailable: set<ToolName>, call: Call)
    | ApproveTool(callId: Id, ownerId: string)
    | Reopen(rows: seq<Row>)

  /** The database, the clock, and what has ever been signed or approved. */
  datatype World = World(
    hub: Hub, clock: Time,
    leases: set<(Id, Spec)>, authorizations: set<Authorization>,
    approvedJobs: set<Id>, approvedCalls: set<Digest>)

  datatype Step = Step(op: Op, now: Time, commits: nat)

  function JobCommit(h: Hub, update: Result<Table, Refusal>): seq<Hub> {
    if update.Ok? then [h.(jobs := update.value)] else []
  }

  /** Every state the operation commits when it is not cut short. */
  function Commits(h: Hub, op: Op, now: Time): seq<Hub> {
    match op
    case CreateJob(runnerId, request, createdAt) =>
      var r := Create(h.jobs, runnerId, request, createdAt, now);
      JobCommit(h, if r.Ok? then Ok(r.value.0) else Err(r.error))
    case ApproveJob(jobId) => JobCommit(h, Jobs.Approve(h.jobs, jobId, now))
    case PullJob(runnerId, jobId) =>
      if OldestDispatched(h.jobs, runnerId, jobId) then JobCommit(h, Pull(h.jobs, jobId, now)) else []
    case Recover(jobId, runnerId, leaseId) =>
      var r := RecoverAgent(h.jobs, jobId, runnerId, leaseId, now);
      JobCommit(h, if r.Ok? then Ok(r.value.0) else Err(r.error))
    case Accept(e) =>
      var r := AcceptEvent(h.jobs, e, now);
      JobCommit(h, if r.Ok? then Ok(r.value.0) else Err(r.error))
    case ReconcileJob(jobId, runnerId, leaseId) => JobCommit(h, Reconcile(h.jobs, jobId, runnerId, leaseId, now))
    case CancelJob(jobId) => JobCommit(h, Cancel(h.jobs, jobId))
    case EvaluateTool(unavailable, call) => Evaluate(h, unavailable, call, now).committed
    case ApproveTool(callId, ownerId) => ApproveCall(h, callId, ownerId, now).committed
    case Reopen(rows) => ReconcileRows(h, rows, now).committed
  }

  function LeasesIn(t: Table): set<(Id, Spec)> {
    set j <- t.jobs | t.jobs[j].spec.Some? :: (j, t.jobs[j].spec.value)
  }

  function AuthorizationsIn(calls: map<Id, Row>): set<Authorization> {
    set c <- calls | calls[c].authorization.Some? :: calls[c].authorization.value
  }

  function Record(w: World, h: Hub): World {
    w.(hub := h, leases := w.leases + LeasesIn(h.jobs), authorizations := w.authorizations + AuthorizationsIn(h.calls))
  }

  function RecordAll(w: World, hubs: seq<Hub>): World
    decreases |hubs|
  {
    if hubs == [] then w else RecordAll(Record(w, hubs[0]), hubs[1..])
  }

  /** The Owner's approval of a held call goes through; under an expired lease it denies the call instead. */
  predicate Grants(h: Hub, callId: Id, ownerId: string, now: Time) {
    && callId in h.calls
    && var committed := ApproveCall(h, callId, ownerId, now).committed;
       committed != [] && callId in committed[0].calls && committed[0].calls[callId].status == Approved
  }

  /** The Owner's approvals, noted when they take effect. */
  function Noted(w: World, op: Op, now: Time): World {
    var w' := w.(clock := now);
    match op
    case ApproveJob(jobId) => w'.(approvedJobs := w.approvedJobs + {jobId})
    case ApproveTool(callId, ownerId) =>
      if Grants(w.hub, callId, ownerId, now) then w'.(approvedCalls := w.approvedCalls + {w.hub.calls[callId].digest})
      else w'
    case _ => w'
  }

  predicate Possible(w: World, s: Step) {
    w.clock <= s.now && s.commits <= |Commits(w.hub, s.op, s.now)|
  }

  function Next(w: World, s: Step): World {
    if !Possible(w, s) || s.commits == 0 then w
    else RecordAll(Noted(w, s.op, s.now), Commits(w.hub, s.op, s.now)[..s.commits])
  }

  function RunAll(w: World, steps: seq<Step>): World
    decreases |steps|
  {
    if steps == [] then w else RunAll(Next(w, steps[0]), steps[1..])
  }

  function Fresh(clock: Time): World {
    World(Hub(Table(map[], map[], map[], {}, 0), map[]), clock, {}, {}, {}, {})
  }

  // ---- What never goes back ----

  /** A Job keeps its identity, a terminal status, its past events; a changed lease is a newly drawn one. */
  ghost predicate JobExtends(t: Table, j: Job, j': Job) {
    && j'.runnerId == j.runnerId && j'.request == j.request && j'.risk == j.risk
    && (Terminal(j.status) ==> j'.status == j.status)
    && (j'.spec == j.spec || (j'.spec.Some? && t.minted <= j'.spec.value.leaseId))
    && j.lastSequence <= j'.lastSequence
  }

  ghost predicate TableExtends(t: Table, t': Table) {
    && t.minted <= t'.minted
    && (forall j <- t.jobs :: j in t'.jobs && JobExtends(t, t.jobs[j], t'.jobs[j]))
    && (forall k <- t.events :: k in t'.events && t'.events[k] == t.events[k])
  }

  function Rank(status: CallStatus): nat {
    match status
    case Pending => 0
    case Approved => 1
    case Denied => 2
  }

  predicate SameCall(row: Row, row': Row) {
    row'.call == row.call && row'.digest == row.digest && row'.risk == row.risk
  }

  ghost predicate CallsExtend(calls: map<Id, Row>, calls': map<Id, Row>) {
    forall c <- calls ::
      && c in calls' && SameCall(calls[c], calls'[c])
      && Rank(calls[c].status) <= Rank(calls'[c].status)
      && (calls[c].status == calls'[c].status == Approved ==> calls'[c] == calls[c])
  }

  ghost predicate Extends(h: Hub, h': Hub) {
    TableExtends(h.jobs, h'.jobs) && CallsExtend(h.calls, h'.calls)
  }

  lemma ExtendsTrans(a: Hub, b: Hub, c: Hub)
    requires Extends(a, b) && Extends(b, c)
    ensures Extends(a, c)
  {
    forall j <- a.jobs.jobs ensures j in c.jobs.jobs && JobExtends(a.jobs, a.jobs.jobs[j], c.jobs.jobs[j]) {
      assert JobExtends(a.jobs, a.jobs.jobs[j], b.jobs.jobs[j]) && JobExtends(b.jobs, b.jobs.jobs[j], c.jobs.jobs[j]);
    }
  }

  // ---- The invariant ----

  ghost predicate JobOk(w: World, j: Id, job: Job) {
    && (job.request.tool == Agent <==> job.risk == R0) && job.risk in {R0, R1}
    && (job.risk == R0 ==> job.spec.Some?)
    && (job.spec.None? ==> job.status in {WaitApproval, Cancelled})
    && job.status !in {New, Planning}
    && (job.spec.Some? ==>
          && (j, job.spec.value) in w.leases
          && job.spec.value.leaseExpiresAt - LEASE_MS <= w.clock
          && (job.risk == R1 ==> j in w.approvedJobs))
  }

  ghost predicate JobsOk(w: World) {
    forall j <- w.hub.jobs.jobs :: j < w.hub.jobs.minted && JobOk(w, j, w.hub.jobs.jobs[j])
  }

  ghost predicate KeysOk(t: Table) {
    && (forall j <- t.jobs :: t.jobs[j].request.idempotencyKey in t.byKey && t.byKey[t.jobs[j].request.idempotencyKey] == j)
    && (forall k <- t.byKey :: t.byKey[k] in t.jobs && t.jobs[t.byKey[k]].request.idempotencyKey == k)
  }

  /** A lease covers [leaseExpiresAt - LEASE_MS, leaseExpiresAt). */
  predicate Before(s: Spec, s': Spec) {
    s.leaseExpiresAt <= s'.leaseExpiresAt - LEASE_MS
  }

  predicate Disjoint(s: Spec, s': Spec) {
    Before(s, s') || Before(s', s)
  }

  ghost predicate LeaseOk(w: World, j: Id, s: Spec) {
    && j in w.hub.jobs.jobs && w.hub.jobs.jobs[j].spec.Some?
    && s.leaseId < w.hub.jobs.minted
    && var current := w.hub.jobs.jobs[j].spec.value;
       && (s.leaseId == current.leaseId ==> s == current)
       && (w.hub.jobs.jobs[j].risk == R0 && s != current ==> Before(s, current))
  }

  ghost predicate LeasesOk(w: World) {
    && (forall p <- w.leases :: LeaseOk(w, p.0, p.1))
    && (forall p <- w.leases, q <- w.leases | p.0 == q.0 && p.1 != q.1 && w.hub.jobs.jobs[p.0].risk == R0 :: Disjoint(p.1, q.1))
  }

  ghost predicate EventsOk(t: Table) {
    && (forall j <- t.jobs :: -1 <= t.jobs[j].lastSequence)
    && (forall j: Id, n: int :: (j, n) in t.events <==> j in t.jobs && 0 <= n <= t.jobs[j].lastSequence)
    && (forall k <- t.events :: t.events[k].jobId == k.0 && t.events[k].sequence == k.1 && t.events[k].eventId in t.eventIds)
    && (forall k <- t.events, l <- t.events | t.events[k].eventId == t.events[l].eventId :: k == l)
  }

  /** A lease with this id was signed for the Job and runs at least until `until`. */
  ghost predicate LeaseUntil(w: World, j: Id, leaseId: Id, until: Time) {
    exists s: Spec :: (j, s) in w.leases && s.leaseId == leaseId && until <= s.leaseExpiresAt
  }

  ghost predicate AuthorizationOk(w: World, a: Authorization) {
    && a.callId == a.digest.call.callId && a.risk == RiskOf(a.digest.call.name)
    && (a.risk != R0 ==> a.digest in w.approvedCalls)
  }

  ghost predicate RowOk(w: World, c: Id, row: Row) {
    && row.call.callId == c && row.digest == Sha256(row.call) && row.risk == RiskOf(row.call.name)
    && ValidReason(row.call.reason)
    && row.call.jobId in w.hub.jobs.jobs
    && w.hub.jobs.jobs[row.call.jobId].request.tool == Agent
    && w.hub.jobs.jobs[row.call.jobId].runnerId == row.call.runnerId
    && row.call.leaseId < w.hub.jobs.minted
    && (row.status == Approved <==> row.authorization.Some?)
    && (row.status == Approved ==>
          && row.authorization.value.digest == row.digest && AuthorizationOk(w, row.authorization.value)
          && LeaseUntil(w, row.call.jobId, row.call.leaseId, row.authorization.value.expiresAt))
  }

  ghost predicate RowsOk(w: World) {
    forall c <- w.hub.calls :: RowOk(w, c, w.hub.calls[c])
  }

  ghost predicate Inv(w: World) {
    && JobsOk(w) && KeysOk(w.hub.jobs) && LeasesOk(w) && EventsOk(w.hub.jobs) && RowsOk(w)
    && (forall a <- w.authorizations :: AuthorizationOk(w, a))
  }

  /** The commit goes nowhere back and keeps the invariant. */
  ghost predicate Good(w: World, h: Hub) {
    Extends(w.hub, h) && Inv(Record(w, h))
  }

  // ---- Each kind of commit is good ----

  lemma RowsSurvive(w: World, w': World)
    requires RowsOk(w) && TableExtends(w.hub.jobs, w'.hub.jobs)
    requires w'.hub.calls == w.hub.calls && w.leases <= w'.leases && w.approvedCalls <= w'.approvedCalls
    ensures RowsOk(w')
  {
    forall c <- w.hub.calls ensures RowOk(w', c, w.hub.calls[c]) {
      assert RowOk(w, c, w.hub.calls[c]);
      var row := w.hub.calls[c];
      assert JobExtends(w.hub.jobs, w.hub.jobs.jobs[row.call.jobId], w'.hub.jobs.jobs[row.call.jobId]);
    }
  }

  lemma SameIsGood(w: World)
    requires Inv(w)
    ensures Good(w, w.hub)
  {
    SameTableExtends(w.hub.jobs);
    SameJobsKeepInv(w, w.hub);
    JobsOnlyKeepCalls(w, w.hub);
    SameCallsExtend(w.hub, w.hub);
  }

  lemma LeasesInIs(t: Table)
    ensures forall p: (Id, Spec) :: p in LeasesIn(t) <==> p.0 in t.jobs && t.jobs[p.0].spec == Some(p.1)
  {
    forall p: (Id, Spec) ensures p in LeasesIn(t) <==> p.0 in t.jobs && t.jobs[p.0].spec == Some(p.1) {
      if p.0 in t.jobs && t.jobs[p.0].spec == Some(p.1) {
        assert p == (p.0, t.jobs[p.0].spec.value);
      }
    }
  }

  /** One Job of the table is rewritten, keeping its identity; its lease is kept or follows the old one. */
  ghost predicate Rewrites(t: Table, t': Table, j: Id) {
    && j in t.jobs && j in t'.jobs && t'.jobs == t.jobs[j := t'.jobs[j]] && t'.byKey == t.byKey
    && t.minted <= t'.minted && JobExtends(t, t.jobs[j], t'.jobs[j])
    && (forall k <- t.events :: k in t'.events && t'.events[k] == t.events[k])
    && t'.jobs[j].spec.Some? == (t.jobs[j].spec.Some? || t'.jobs[j].spec != t.jobs[j].spec)
    && (t'.jobs[j].spec != t.jobs[j].spec ==>
          && t'.jobs[j].spec.value.leaseId < t'.minted
          && (t.jobs[j].risk == R0 ==> t.jobs[j].spec.Some? && Before(t.jobs[j].spec.value, t'.jobs[j].spec.value)))
  }

  lemma LeasesAfterRewrite(w: World, h: Hub, j: Id)
    requires JobsOk(w) && LeasesOk(w) && Rewrites(w.hub.jobs, h.jobs, j)
    ensures Record(w, h).leases == w.leases + if h.jobs.jobs[j].spec.Some? then {(j, h.jobs.jobs[j].spec.value)} else {}
  {
    LeasesInIs(h.jobs);
  }

  lemma RewriteKeepsEachLease(w: World, h: Hub, j: Id)
    requires JobsOk(w) && LeasesOk(w) && Rewrites(w.hub.jobs, h.jobs, j)
    ensures forall p <- Record(w, h).leases :: LeaseOk(Record(w, h), p.0, p.1)
  {
    var w' := Record(w, h);
    LeasesAfterRewrite(w, h, j);
    forall p <- w'.leases ensures LeaseOk(w', p.0, p.1) {
      if p in w.leases { assert LeaseOk(w, p.0, p.1); }
    }
  }

  lemma RewriteKeepsLeases(w: World, h: Hub, j: Id)
    requires JobsOk(w) && LeasesOk(w) && Rewrites(w.hub.jobs, h.jobs, j)
    ensures LeasesOk(Record(w, h))
  {
    var w' := Record(w, h);
    LeasesAfterRewrite(w, h, j);
    RewriteKeepsEachLease(w, h, j);
    forall p <- w'.leases, q <- w'.leases | p.0 == q.0 && p.1 != q.1 && h.jobs.jobs[p.0].risk == R0
      ensures Disjoint(p.1, q.1)
    {
      assert LeaseOk(w', p.0, p.1) && LeaseOk(w', q.0, q.1);
    }
  }

  lemma RewriteKeepsJobs(w: World, h: Hub, j: Id)
    requires JobsOk(w) && Rewrites(w.hub.jobs, h.jobs, j) && JobOk(Record(w, h), j, h.jobs.jobs[j])
    ensures JobsOk(Record(w, h)) && TableExtends(w.hub.jobs, h.jobs)
  {
  }

  lemma SameCallsExtend(h: Hub, h': Hub)
    requires TableExtends(h.jobs, h'.jobs) && h'.calls == h.calls
    ensures Extends(h, h')
  {
  }

  lemma JobsOnlyKeepCalls(w: World, h: Hub)
    requires RowsOk(w) && h.calls == w.hub.calls && TableExtends(w.hub.jobs, h.jobs)
    requires forall a <- w.authorizations :: AuthorizationOk(w, a)
    ensures var w' := Record(w, h); RowsOk(w') && forall a <- w'.authorizations :: AuthorizationOk(w', a)
  {
    RowsSurvive(w, Record(w, h));
    RecordedAuthorizations(w, h);
  }

  lemma RewriteIsGood(w: World, h: Hub, j: Id)
    requires Inv(w) && h.calls == w.hub.calls && Rewrites(w.hub.jobs, h.jobs, j) && EventsOk(h.jobs)
    requires JobOk(Record(w, h), j, h.jobs.jobs[j])
    ensures Good(w, h)
  {
    RewriteKeepsJobs(w, h, j);
    RewriteKeepsLeases(w, h, j);
    RewriteKeepsKeys(w.hub.jobs, h.jobs, j);
    JobsOnlyKeepCalls(w, h);
    SameCallsExtend(w.hub, h);
  }

  lemma RewriteKeepsKeys(t: Table, t': Table, j: Id)
    requires KeysOk(t) && Rewrites(t, t', j)
    ensures KeysOk(t')
  {
    forall i <- t.jobs ensures t'.jobs[i].request == t.jobs[i].request {
    }
  }

  lemma EventsSurvive(t: Table, t': Table)
    requires EventsOk(t) && t'.events == t.events && t'.eventIds == t.eventIds && t'.jobs.Keys == t.jobs.Keys
    requires forall j <- t.jobs :: t'.jobs[j].lastSequence == t.jobs[j].lastSequence
    ensures EventsOk(t')
  {
  }

  lemma StatusIsGood(w: World, j: Id, status: JobState)
    requires Inv(w) && j in w.hub.jobs.jobs && !Terminal(w.hub.jobs.jobs[j].status)
    requires status !in {New, Planning} && (w.hub.jobs.jobs[j].spec.Some? || status == Cancelled)
    ensures Good(w, w.hub.(jobs := SetStatus(w.hub.jobs, j, status)))
  {
    var h := w.hub.(jobs := SetStatus(w.hub.jobs, j, status));
    EventsSurvive(w.hub.jobs, h.jobs);
    RewriteIsGood(w, h, j);
  }

  /** A renewal of an expired agent lease, or a signature for an approved Job. */
  lemma SignIsGood(w: World, j: Id)
    requires Inv(w) && j in w.hub.jobs.jobs && !Terminal(w.hub.jobs.jobs[j].status)
    requires w.hub.jobs.jobs[j].risk == R0 ==> w.hub.jobs.jobs[j].spec.value.leaseExpiresAt <= w.clock
    requires w.hub.jobs.jobs[j].risk == R1 ==> j in w.approvedJobs
    ensures Good(w, w.hub.(jobs := Sign(w.hub.jobs, j, w.clock)))
  {
    var h := w.hub.(jobs := Sign(w.hub.jobs, j, w.clock));
    EventsSurvive(w.hub.jobs, h.jobs);
    LeasesInIs(h.jobs);
    assert (j, h.jobs.jobs[j].spec.value) in LeasesIn(h.jobs);
    assert h.jobs.jobs[j].spec != w.hub.jobs.jobs[j].spec by {
      if w.hub.jobs.jobs[j].spec.Some? { assert LeaseOk(w, j, w.hub.jobs.jobs[j].spec.value); }
    }
    RewriteIsGood(w, h, j);
  }

  lemma AppendKeepsEvents(t: Table, t': Table, e: JobEvent)
    requires EventsOk(t) && e.jobId in t.jobs && e.sequence == t.jobs[e.jobId].lastSequence + 1 && e.eventId !in t.eventIds
    requires t'.events == t.events[(e.jobId, e.sequence) := e] && t'.eventIds == t.eventIds + {e.eventId}
    requires e.jobId in t'.jobs && t'.jobs == t.jobs[e.jobId := t'.jobs[e.jobId]]
    requires t'.jobs[e.jobId].lastSequence == e.sequence
    ensures EventsOk(t')
    ensures forall k <- t.events :: k in t'.events && t'.events[k] == t.events[k]
  {
    assert (e.jobId, e.sequence) !in t.events;
  }

  lemma AcceptedEventRewrites(t: Table, e: JobEvent, now: Time)
    requires EventsOk(t) && AcceptEvent(t, e, now).Ok? && !AcceptEvent(t, e, now).value.1
    ensures var t' := AcceptEvent(t, e, now).value.0;
      && EventsOk(t') && Rewrites(t, t', e.jobId) && t'.jobs[e.jobId].spec == t.jobs[e.jobId].spec
      && t.jobs[e.jobId].spec.Some?
      && (t'.jobs[e.jobId].status == t.jobs[e.jobId].status || t'.jobs[e.jobId].status in AllowedNext(t.jobs[e.jobId].status))
  {
    var t' := AcceptEvent(t, e, now).value.0;
    AppendKeepsEvents(t, t', e);
    assert JobExtends(t, t.jobs[e.jobId], t'.jobs[e.jobId]);
  }

  lemma EventIsGood(w: World, e: JobEvent)
    requires Inv(w) && AcceptEvent(w.hub.jobs, e, w.clock).Ok? && !AcceptEvent(w.hub.jobs, e, w.clock).value.1
    ensures Good(w, w.hub.(jobs := AcceptEvent(w.hub.jobs, e, w.clock).value.0))
  {
    var h := w.hub.(jobs := AcceptEvent(w.hub.jobs, e, w.clock).value.0);
    AcceptedEventRewrites(w.hub.jobs, e, w.clock);
    MovedJobIsOk(w, h, e.jobId);
    RewriteIsGood(w, h, e.jobId);
  }

  /** A Job that keeps its lease and makes an allowed move stays in order. */
  lemma MovedJobIsOk(w: World, h: Hub, j: Id)
    requires JobsOk(w) && Rewrites(w.hub.jobs, h.jobs, j) && h.jobs.jobs[j].spec == w.hub.jobs.jobs[j].spec
    requires var (status, status') := (w.hub.jobs.jobs[j].status, h.jobs.jobs[j].status);
      status' == status || (status' in AllowedNext(status) && w.hub.jobs.jobs[j].spec.Some?)
    ensures JobOk(Record(w, h), j, h.jobs.jobs[j])
  {
    assert JobOk(w, j, w.hub.jobs.jobs[j]);
  }

  /** The table gains one Job, under the next UUIDs, and its lease if it is an agent Job. */
  ghost predicate Adds(w: World, t': Table, j: Id, job: Job) {
    var t := w.hub.jobs;
    && j == t.minted < t'.minted && t' == t.(jobs := t.jobs[j := job], byKey := t'.byKey, minted := t'.minted)
    && job.lastSequence == -1
    && (job.spec.Some? ==> job.spec.value.leaseId < t'.minted)
  }

  lemma AddKeepsLeases(w: World, h: Hub, j: Id, job: Job)
    requires JobsOk(w) && LeasesOk(w) && Adds(w, h.jobs, j, job)
    ensures LeasesOk(Record(w, h))
    ensures job.spec.Some? ==> (j, job.spec.value) in Record(w, h).leases
  {
    var w' := Record(w, h);
    LeasesInIs(h.jobs);
    assert w'.leases == w.leases + if job.spec.Some? then {(j, job.spec.value)} else {};
    forall p <- w'.leases ensures LeaseOk(w', p.0, p.1) {
      if p in w.leases { assert LeaseOk(w, p.0, p.1); }
    }
  }

  lemma AddKeepsEvents(w: World, t': Table, j: Id, job: Job)
    requires JobsOk(w) && EventsOk(w.hub.jobs) && Adds(w, t', j, job)
    ensures EventsOk(t')
  {
    assert j !in w.hub.jobs.jobs;
  }

  lemma AddKeepsJobs(w: World, h: Hub, j: Id, job: Job)
    requires JobsOk(w) && Adds(w, h.jobs, j, job) && JobOk(Record(w, h), j, job)
    ensures JobsOk(Record(w, h)) && TableExtends(w.hub.jobs, h.jobs)
  {
    assert j !in w.hub.jobs.jobs;
  }

  lemma CreateKeepsKeys(t: Table, runnerId: Id, request: Request, createdAt: Time, now: Time)
    requires KeysOk(t) && request.idempotencyKey !in t.byKey && t.minted !in t.jobs
    ensures KeysOk(Create(t, runnerId, request, createdAt, now).value.0)
  {
  }

  lemma CreateIsGood(w: World, runnerId: Id, request: Request, createdAt: Time)
    requires Inv(w) && request.idempotencyKey !in w.hub.jobs.byKey
    ensures Good(w, w.hub.(jobs := Create(w.hub.jobs, runnerId, request, createdAt, w.clock).value.0))
  {
    var t' := Create(w.hub.jobs, runnerId, request, createdAt, w.clock).value.0;
    var h := w.hub.(jobs := t');
    var j := w.hub.jobs.minted;
    CreateKeepsKeys(w.hub.jobs, runnerId, request, createdAt, w.clock);
    AddKeepsLeases(w, h, j, t'.jobs[j]);
    AddKeepsEvents(w, t', j, t'.jobs[j]);
    AddKeepsJobs(w, h, j, t'.jobs[j]);
    SameIsGood(w);
    RowsSurvive(w, Record(w, h));
  }

  /** A commit that leaves the Jobs alone leaves their part of the invariant alone. */
  lemma SameJobsKeepInv(w: World, h: Hub)
    requires Inv(w) && h.jobs == w.hub.jobs
    ensures var w' := Record(w, h);
      w'.leases == w.leases && JobsOk(w') && KeysOk(h.jobs) && LeasesOk(w') && EventsOk(h.jobs)
  {
    assert LeasesIn(h.jobs) == LeasesIn(w.hub.jobs) <= w.leases by {
      LeasesInIs(w.hub.jobs);
      forall j <- w.hub.jobs.jobs ensures JobOk(w, j, w.hub.jobs.jobs[j]) {
      }
    }
    var w' := Record(w, h);
    assert w'.leases == w.leases;
    forall p <- w'.leases ensures LeaseOk(w', p.0, p.1) {
      assert LeaseOk(w, p.0, p.1);
    }
    forall j <- h.jobs.jobs ensures JobOk(w', j, h.jobs.jobs[j]) {
      assert JobOk(w, j, w.hub.jobs.jobs[j]);
    }
  }

  lemma RecordedAuthorizations(w: World, h: Hub)
    requires RowsOk(Record(w, h)) && forall a <- w.authorizations :: AuthorizationOk(w, a)
    ensures var w' := Record(w, h); forall a <- w'.authorizations :: AuthorizationOk(w', a)
  {
    var w' := Record(w, h);
    forall a <- w'.authorizations ensures AuthorizationOk(w', a) {
      if a in w.authorizations {
        assert AuthorizationOk(w, a);
      } else {
        var c :| c in h.calls && h.calls[c].authorization == Some(a);
        assert RowOk(w', c, h.calls[c]);
      }
    }
  }

  lemma SameTableExtends(t: Table)
    ensures TableExtends(t, t)
  {
    forall j <- t.jobs ensures JobExtends(t, t.jobs[j], t.jobs[j]) {
    }
  }

  /** A commit that writes one call row in order is good. */
  lemma WriteCallIsGood(w: World, c: Id, row: Row)
    requires Inv(w) && RowOk(w, c, row) && CallsExtend(w.hub.calls, w.hub.calls[c := row])
    ensures Good(w, w.hub.(calls := w.hub.calls[c := row]))
  {
    var h := w.hub.(calls := w.hub.calls[c := row]);
    SameJobsKeepInv(w, h);
    SameJobsKeepInv(w, w.hub);
    WriteCallKeepsRows(w, c, row);
    RecordedAuthorizations(w, h);
    SameTableExtends(w.hub.jobs);
  }

  lemma WriteCallKeepsRows(w: World, c: Id, row: Row)
    requires RowsOk(w) && RowOk(w, c, row) && LeasesIn(w.hub.jobs) <= w.leases
    ensures RowsOk(Record(w, w.hub.(calls := w.hub.calls[c := row])))
  {
    var h := w.hub.(calls := w.hub.calls[c := row]);
    var w' := Record(w, h);
    assert w'.leases == w.leases;
    forall d <- h.calls ensures RowOk(w', d, h.calls[d]) {
      assert RowOk(w, d, h.calls[d]);
    }
  }

  lemma InsertIsGood(w: World, row: Row)
    requires Inv(w) && row.call.callId !in w.hub.calls && RowOk(w, row.call.callId, row)
    ensures Good(w, Insert(w.hub, row))
  {
    WriteCallIsGood(w, row.call.callId, row);
  }

  lemma SettleIsGood(w: World, c: Id, status: CallStatus, authorization: Option<Authorization>)
    requires Inv(w) && c in w.hub.calls && Rank(w.hub.calls[c].status) <= Rank(status)
    requires w.hub.calls[c].status == Approved ==> status == Denied
    requires RowOk(w, c, w.hub.calls[c].(status := status, authorization := authorization))
    ensures Good(w, Settle(w.hub, c, status, authorization))
  {
    WriteCallIsGood(w, c, w.hub.calls[c].(status := status, authorization := authorization));
  }

  // ---- Each operation is good ----

  /** A sequence of commits, each related to the world before it. */
  ghost predicate Each(good: (World, Hub) -> bool, w: World, hubs: seq<Hub>)
    decreases |hubs|
  {
    hubs == [] || (good(w, hubs[0]) && Each(good, Record(w, hubs[0]), hubs[1..]))
  }

  lemma {:induction false} EachAppend(good: (World, Hub) -> bool, w: World, first: seq<Hub>, second: seq<Hub>)
    requires Each(good, w, first) && Each(good, RecordAll(w, first), second)
    ensures Each(good, w, first + second)
    decreases |first|
  {
    if first == [] {
      assert first + second == second;
    } else {
      assert (first + second)[1..] == first[1..] + second;
      EachAppend(good, Record(w, first[0]), first[1..], second);
    }
  }

  ghost predicate GoodRun(w: World, hubs: seq<Hub>) {
    Each(Good, w, hubs)
  }

  lemma RecordFirst(w: World, hubs: seq<Hub>, k: nat)
    requires 0 < k <= |hubs|
    ensures RecordAll(w, hubs[..k]) == RecordAll(Record(w, hubs[0]), hubs[1..][..k - 1])
  {
    assert hubs[..k][1..] == hubs[1..][..k - 1];
  }

  /** Commits that each keep `inv` and go forward in the order `forward` do so together. */
  lemma {:induction false} EachKeeps(good: (World, Hub) -> bool, inv: World -> bool, forward: (Hub, Hub) -> bool,
                                     w: World, hubs: seq<Hub>, k: nat)
    requires forall v: World, h: Hub :: good(v, h) ==> forward(v.hub, h) && inv(Record(v, h))
    requires forall a: Hub, b: Hub, c: Hub :: forward(a, b) && forward(b, c) ==> forward(a, c)
    requires Each(good, w, hubs) && 0 < k <= |hubs|
    ensures inv(RecordAll(w, hubs[..k])) && forward(w.hub, RecordAll(w, hubs[..k]).hub)
    decreases |hubs|
  {
    RecordFirst(w, hubs, k);
    if k > 1 {
      EachKeeps(good, inv, forward, Record(w, hubs[0]), hubs[1..], k - 1);
    } else {
      assert hubs[1..][..0] == [];
    }
  }

  lemma GoodRunKeeps(w: World, hubs: seq<Hub>, k: nat)
    requires Inv(w) && GoodRun(w, hubs) && k <= |hubs|
    ensures Inv(RecordAll(w, hubs[..k])) && Extends(w.hub, RecordAll(w, hubs[..k]).hub)
  {
    SameIsGood(w);
    if k > 0 {
      forall a: Hub, b: Hub, c: Hub | Extends(a, b) && Extends(b, c) ensures Extends(a, c) {
        ExtendsTrans(a, b, c);
      }
      EachKeeps(Good, Inv, Extends, w, hubs, k);
    }
  }

  /** Time passes and approvals are added; nothing else changes. */
  predicate Notes(w: World, w': World) {
    && w'.hub == w.hub && w'.leases == w.leases && w'.authorizations == w.authorizations && w.clock <= w'.clock
    && w.approvedJobs <= w'.approvedJobs && w.approvedCalls <= w'.approvedCalls
  }

  lemma NotesKeepJobs(w: World, w': World)
    requires Notes(w, w') && JobsOk(w) && LeasesOk(w)
    ensures JobsOk(w') && LeasesOk(w')
  {
    forall j <- w.hub.jobs.jobs ensures JobOk(w', j, w.hub.jobs.jobs[j]) {
      assert JobOk(w, j, w.hub.jobs.jobs[j]);
    }
    forall p <- w.leases ensures LeaseOk(w', p.0, p.1) {
      assert LeaseOk(w, p.0, p.1);
    }
  }

  lemma NotesKeepRows(w: World, w': World)
    requires Notes(w, w') && RowsOk(w)
    ensures RowsOk(w')
  {
    forall c <- w.hub.calls ensures RowOk(w', c, w.hub.calls[c]) {
      assert RowOk(w, c, w.hub.calls[c]);
    }
  }

  lemma NotesKeepInv(w: World, w': World)
    requires Inv(w) && Notes(w, w')
    ensures Inv(w')
  {
    NotesKeepJobs(w, w');
    NotesKeepRows(w, w');
  }

  lemma NotedNotes(w: World, op: Op, now: Time)
    requires w.clock <= now
    ensures Notes(w, Noted(w, op, now))
  {
  }

  lemma NotedKeepsInv(w: World, op: Op, now: Time)
    requires Inv(w) && w.clock <= now
    ensures Inv(Noted(w, op, now))
  {
    NotedNotes(w, op, now);
    NotesKeepInv(w, Noted(w, op, now));
  }

  /** Any Job transaction of an operation, alone or after a call row was written. */
  lemma WaitIsGood(w: World, jobId: Id, runnerId: Id, leaseId: Id)
    requires Inv(w)
    ensures var r := WaitForToolApproval(w.hub.jobs, jobId, runnerId, leaseId, w.clock);
      r.Ok? ==> Good(w, w.hub.(jobs := r.value))
  {
    var r := WaitForToolApproval(w.hub.jobs, jobId, runnerId, leaseId, w.clock);
    if r.Ok? {
      if w.hub.jobs.jobs[jobId].status == WaitApproval { SameIsGood(w); } else { StatusIsGood(w, jobId, WaitApproval); }
    }
  }

  lemma DispatchIsGood(w: World, jobId: Id, runnerId: Id, leaseId: Id)
    requires Inv(w)
    ensures var r := DispatchAfterToolApproval(w.hub.jobs, jobId, runnerId, leaseId, w.clock);
      r.Ok? ==> Good(w, w.hub.(jobs := r.value))
  {
    if DispatchAfterToolApproval(w.hub.jobs, jobId, runnerId, leaseId, w.clock).Ok? {
      StatusIsGood(w, jobId, Dispatched);
    }
  }

  lemma RedispatchIsGood(w: World, jobId: Id, runnerId: Id, leaseId: Id)
    requires Inv(w)
    ensures var r := RedispatchAfterDeniedToolCall(w.hub.jobs, jobId, runnerId, leaseId, w.clock);
      r.Ok? ==> Good(w, w.hub.(jobs := r.value))
  {
    if RedispatchAfterDeniedToolCall(w.hub.jobs, jobId, runnerId, leaseId, w.clock).Ok? {
      assert JobOk(w, jobId, w.hub.jobs.jobs[jobId]);
      if w.hub.jobs.jobs[jobId].spec.value.leaseExpiresAt <= w.clock { SignIsGood(w, jobId); } else { StatusIsGood(w, jobId, Dispatched); }
    }
  }

  lemma GoodSingle(w: World, h: Hub)
    requires Good(w, h)
    ensures GoodRun(w, [h])
  {
    assert [h][1..] == [];
  }

  lemma CommitIsGood(w: World, update: Result<Table, Refusal>)
    requires update.Ok? ==> Good(w, w.hub.(jobs := update.value))
    ensures GoodRun(w, JobCommit(w.hub, update))
  {
    if update.Ok? {
      GoodSingle(w, w.hub.(jobs := update.value));
    }
  }

  lemma CommitFirstIsGood<T>(w: World, r: Result<(Table, T), Refusal>)
    requires r.Ok? ==> Good(w, w.hub.(jobs := r.value.0))
    ensures GoodRun(w, JobCommit(w.hub, if r.Ok? then Ok(r.value.0) else Err(r.error)))
  {
    CommitIsGood(w, if r.Ok? then Ok(r.value.0) else Err(r.error));
  }

  lemma CreateOpIsGood(w: World, runnerId: Id, request: Request, createdAt: Time)
    requires Inv(w)
    ensures GoodRun(w, Commits(w.hub, CreateJob(runnerId, request, createdAt), w.clock))
  {
    var r := Create(w.hub.jobs, runnerId, request, createdAt, w.clock);
    if request.idempotencyKey in w.hub.jobs.byKey { SameIsGood(w); } else { CreateIsGood(w, runnerId, request, createdAt); }
    CommitIsGood(w, if r.Ok? then Ok(r.value.0) else Err(r.error));
  }

  lemma AcceptOpIsGood(w: World, e: JobEvent)
    requires Inv(w)
    ensures GoodRun(w, Commits(w.hub, Accept(e), w.clock))
  {
    AcceptIsGood(w, e);
    CommitFirstIsGood(w, AcceptEvent(w.hub.jobs, e, w.clock));
  }

  lemma AcceptIsGood(w: World, e: JobEvent)
    requires Inv(w)
    ensures var r := AcceptEvent(w.hub.jobs, e, w.clock); r.Ok? ==> Good(w, w.hub.(jobs := r.value.0))
  {
    var r := AcceptEvent(w.hub.jobs, e, w.clock);
    if r.Ok? {
      if r.value.1 {
        DuplicateChangesNothing(w.hub.jobs, e, w.clock);
        SameIsGood(w);
      } else {
        EventIsGood(w, e);
      }
    }
  }

  lemma DuplicateChangesNothing(t: Table, e: JobEvent, now: Time)
    requires AcceptEvent(t, e, now).Ok? && AcceptEvent(t, e, now).value.1
    ensures AcceptEvent(t, e, now).value.0 == t
  {
  }

  lemma RecoverOpIsGood(w: World, jobId: Id, runnerId: Id, leaseId: Id)
    requires Inv(w)
    ensures GoodRun(w, Commits(w.hub, Recover(jobId, runnerId, leaseId), w.clock))
  {
    var r := RecoverAgent(w.hub.jobs, jobId, runnerId, leaseId, w.clock);
    if r.Ok? { RecoverIsGood(w, jobId, runnerId, leaseId); }
    CommitIsGood(w, if r.Ok? then Ok(r.value.0) else Err(r.error));
  }

  lemma ApproveOpIsGood(w: World, jobId: Id)
    requires Inv(w) && jobId in w.approvedJobs
    ensures GoodRun(w, Commits(w.hub, ApproveJob(jobId), w.clock))
  {
    var r := Jobs.Approve(w.hub.jobs, jobId, w.clock);
    if r.Ok? { SignIsGood(w, jobId); }
    CommitIsGood(w, r);
  }

  lemma JobOpIsGood(w: World, op: Op)
    requires Inv(w) && !op.EvaluateTool? && !op.ApproveTool? && !op.Reopen?
    requires op.ApproveJob? ==> op.jobId in w.approvedJobs
    ensures GoodRun(w, Commits(w.hub, op, w.clock))
  {
    match op
    case CreateJob(runnerId, request, createdAt) => CreateOpIsGood(w, runnerId, request, createdAt);
    case ApproveJob(jobId) => ApproveOpIsGood(w, jobId);
    case PullJob(runnerId, jobId) =>
      if OldestDispatched(w.hub.jobs, runnerId, jobId) {
        PullIsGood(w, jobId);
        CommitIsGood(w, Pull(w.hub.jobs, jobId, w.clock));
      }
    case Recover(jobId, runnerId, leaseId) => RecoverOpIsGood(w, jobId, runnerId, leaseId);
    case Accept(e) => AcceptOpIsGood(w, e);
    case ReconcileJob(jobId, runnerId, leaseId) =>
      ReconcileIsGood(w, jobId, runnerId, leaseId);
      CommitIsGood(w, Reconcile(w.hub.jobs, jobId, runnerId, leaseId, w.clock));
    case CancelJob(jobId) =>
      if Cancel(w.hub.jobs, jobId).Ok? { StatusIsGood(w, jobId, Cancelled); }
      CommitIsGood(w, Cancel(w.hub.jobs, jobId));
  }

  lemma ReconcileIsGood(w: World, jobId: Id, runnerId: Id, leaseId: Id)
    requires Inv(w)
    ensures var r := Reconcile(w.hub.jobs, jobId, runnerId, leaseId, w.clock); r.Ok? ==> Good(w, w.hub.(jobs := r.value))
  {
    var r := Reconcile(w.hub.jobs, jobId, runnerId, leaseId, w.clock);
    if r.Ok? {
      if r.value == w.hub.jobs { SameIsGood(w); } else { StatusIsGood(w, jobId, Reconciling); }
    }
  }

  lemma PullIsGood(w: World, jobId: Id)
    requires Inv(w) && jobId in w.hub.jobs.jobs && w.hub.jobs.jobs[jobId].status == Dispatched
    ensures var r := Pull(w.hub.jobs, jobId, w.clock); r.Ok? && Good(w, w.hub.(jobs := r.value))
  {
    assert JobOk(w, jobId, w.hub.jobs.jobs[jobId]);
    if w.hub.jobs.jobs[jobId].spec.value.leaseExpiresAt <= w.clock { SignIsGood(w, jobId); } else { SameIsGood(w); }
  }

  lemma RecoverIsGood(w: World, jobId: Id, runnerId: Id, leaseId: Id)
    requires Inv(w) && RecoverAgent(w.hub.jobs, jobId, runnerId, leaseId, w.clock).Ok?
    ensures Good(w, w.hub.(jobs := RecoverAgent(w.hub.jobs, jobId, runnerId, leaseId, w.clock).value.0))
  {
    var t' := RecoverAgent(w.hub.jobs, jobId, runnerId, leaseId, w.clock).value.0;
    RecoverUpdates(w.hub.jobs, jobId, runnerId, leaseId, w.clock);
    if t' == w.hub.jobs {
      SameIsGood(w);
    } else if t' == Sign(w.hub.jobs, jobId, w.clock) {
      SignIsGood(w, jobId);
    } else {
      StatusIsGood(w, jobId, Dispatched);
    }
  }

  lemma RecoverUpdates(t: Table, jobId: Id, runnerId: Id, leaseId: Id, now: Time)
    requires RecoverAgent(t, jobId, runnerId, leaseId, now).Ok?
    ensures var t' := RecoverAgent(t, jobId, runnerId, leaseId, now).value.0;
      && jobId in t.jobs && t.jobs[jobId].request.tool == Agent && t.jobs[jobId].spec.Some?
      && (|| t' == t
          || (t' == Sign(t, jobId, now) && t.jobs[jobId].status == Running && t.jobs[jobId].spec.value.leaseExpiresAt <= now)
          || (t' == SetStatus(t, jobId, Dispatched) && t.jobs[jobId].status == Running))
  {
  }

  /** A good commit followed by a good Job transaction, if that one does not throw. */
  lemma GoodThenJobs<T>(w: World, h: Hub, update: Result<Table, Refusal>, value: T)
    requires Good(w, h) && (update.Ok? ==> Good(Record(w, h), h.(jobs := update.value)))
    ensures GoodRun(w, ThenJobs(h, [h], update, value).committed)
  {
    GoodSingle(w, h);
    if update.Ok? {
      GoodSingle(Record(w, h), h.(jobs := update.value));
      assert RecordAll(w, [h]) == Record(w, h) by { assert [h][1..] == []; }
      EachAppend(Good, w, [h], [h.(jobs := update.value)]);
    }
  }

  lemma GoodJobsOnly<T>(w: World, update: Result<Table, Refusal>, value: T)
    requires update.Ok? ==> Good(w, w.hub.(jobs := update.value))
    ensures GoodRun(w, ThenJobs(w.hub, [], update, value).committed)
  {
    if update.Ok? {
      GoodSingle(w, w.hub.(jobs := update.value));
      assert [] + [w.hub.(jobs := update.value)] == [w.hub.(jobs := update.value)];
    }
  }

  /** A row for a call on the Job's current lease may be written. */
  lemma RowOnCurrentLease(w: World, row: Row)
    requires Inv(w) && row.digest == Sha256(row.call) && row.risk == RiskOf(row.call.name) && ValidReason(row.call.reason)
    requires OnCurrentLease(w.hub.jobs, row.call) && w.hub.jobs.jobs[row.call.jobId].runnerId == row.call.runnerId
    requires row.status == Approved <==> row.authorization.Some?
    requires row.status == Approved ==>
      && row.authorization.value.digest == row.digest && AuthorizationOk(w, row.authorization.value)
      && row.authorization.value.expiresAt <= w.hub.jobs.jobs[row.call.jobId].spec.value.leaseExpiresAt
    ensures RowOk(w, row.call.callId, row)
  {
    var spec := w.hub.jobs.jobs[row.call.jobId].spec.value;
    assert JobOk(w, row.call.jobId, w.hub.jobs.jobs[row.call.jobId]);
    assert LeaseOk(w, row.call.jobId, spec);
    if row.status == Approved {
      assert (row.call.jobId, spec) in w.leases;
    }
  }

  lemma InsertThenWaitIsGood(w: World, row: Row, decision: Decision)
    requires Inv(w) && row.call.callId !in w.hub.calls && RowOk(w, row.call.callId, row)
    ensures GoodRun(w, [Insert(w.hub, row)])
    ensures var (call, held) := (row.call, Insert(w.hub, row));
      GoodRun(w, ThenJobs(held, [held], WaitForToolApproval(w.hub.jobs, call.jobId, call.runnerId, call.leaseId, w.clock), decision).committed)
  {
    var (call, held) := (row.call, Insert(w.hub, row));
    InsertIsGood(w, row);
    GoodSingle(w, held);
    WaitIsGood(Record(w, held), call.jobId, call.runnerId, call.leaseId);
    GoodThenJobs(w, held, WaitForToolApproval(w.hub.jobs, call.jobId, call.runnerId, call.leaseId, w.clock), decision);
  }

  lemma ProposeIsGood(w: World, call: Call, status: CallStatus, authorization: Option<Authorization>)
    requires Inv(w) && call.callId !in w.hub.calls && ValidReason(call.reason)
    requires OnCurrentLease(w.hub.jobs, call) && w.hub.jobs.jobs[call.jobId].runnerId == call.runnerId
    requires status == Approved <==> authorization.Some?
    requires status == Approved ==>
      && authorization.value.digest == Sha256(call) && AuthorizationOk(w, authorization.value)
      && authorization.value.expiresAt <= w.hub.jobs.jobs[call.jobId].spec.value.leaseExpiresAt
    ensures var held := Insert(w.hub, NewRow(call, status, authorization));
      && GoodRun(w, [held])
      && GoodRun(w, ThenJobs(held, [held], WaitForToolApproval(w.hub.jobs, call.jobId, call.runnerId, call.leaseId, w.clock),
                             Decision(Pending, RiskOf(call.name), None)).committed)
  {
    var row := NewRow(call, status, authorization);
    RowOnCurrentLease(w, row);
    InsertThenWaitIsGood(w, row, Decision(Pending, RiskOf(call.name), None));
  }

  lemma ReplayIsGood(w: World, call: Call, decision: Decision)
    requires Inv(w)
    ensures GoodRun(w, ThenJobs(w.hub, [], WaitForToolApproval(w.hub.jobs, call.jobId, call.runnerId, call.leaseId, w.clock), decision).committed)
  {
    WaitIsGood(w, call.jobId, call.runnerId, call.leaseId);
    GoodJobsOnly(w, WaitForToolApproval(w.hub.jobs, call.jobId, call.runnerId, call.leaseId, w.clock), decision);
  }

  lemma EvaluateIsGood(w: World, unavailable: set<ToolName>, call: Call)
    requires Inv(w)
    ensures GoodRun(w, Evaluate(w.hub, unavailable, call, w.clock).committed)
  {
    var committed := Evaluate(w.hub, unavailable, call, w.clock).committed;
    if committed == [] {
    } else if call.callId in w.hub.calls {
      ReplayIsGood(w, call, DecisionOf(w.hub.calls[call.callId], w.clock));
    } else if call.name in unavailable {
      assert committed == [Insert(w.hub, NewRow(call, Denied, None))];
      ProposeIsGood(w, call, Denied, None);
    } else if RiskOf(call.name) != R0 {
      ProposeIsGood(w, call, Pending, None);
    } else {
      var authorization := Authorize(call, Sha256(call), R0, "policy", w.hub.jobs.jobs[call.jobId].spec.value.leaseExpiresAt, w.clock);
      assert committed == [Insert(w.hub, NewRow(call, Approved, Some(authorization.value)))];
      ProposeIsGood(w, call, Approved, Some(authorization.value));
    }
  }

  lemma SettleThenJobsIsGood(w: World, callId: Id, status: CallStatus, authorization: Option<Authorization>, decision: Decision)
    requires Inv(w) && callId in w.hub.calls && w.hub.calls[callId].status == Pending && status != Pending
    requires RowOk(w, callId, w.hub.calls[callId].(status := status, authorization := authorization))
    ensures var (call, h) := (w.hub.calls[callId].call, Settle(w.hub, callId, status, authorization));
      && GoodRun(w, ThenJobs(h, [h], DispatchAfterToolApproval(w.hub.jobs, call.jobId, call.runnerId, call.leaseId, w.clock), decision).committed)
      && GoodRun(w, ThenJobs(h, [h], RedispatchAfterDeniedToolCall(w.hub.jobs, call.jobId, call.runnerId, call.leaseId, w.clock), decision).committed)
  {
    var (call, h) := (w.hub.calls[callId].call, Settle(w.hub, callId, status, authorization));
    SettleIsGood(w, callId, status, authorization);
    DispatchIsGood(Record(w, h), call.jobId, call.runnerId, call.leaseId);
    RedispatchIsGood(Record(w, h), call.jobId, call.runnerId, call.leaseId);
    GoodThenJobs(w, h, DispatchAfterToolApproval(w.hub.jobs, call.jobId, call.runnerId, call.leaseId, w.clock), decision);
    GoodThenJobs(w, h, RedispatchAfterDeniedToolCall(w.hub.jobs, call.jobId, call.runnerId, call.leaseId, w.clock), decision);
  }

  /** What the first commit of an approval writes into the row, and the Job transaction that follows it. */
  lemma ApprovalSettles(h: Hub, callId: Id, ownerId: string, now: Time)
    requires ApproveCall(h, callId, ownerId, now).committed != []
    ensures callId in h.calls && callId in ApproveCall(h, callId, ownerId, now).committed[0].calls
    ensures var (row, run) := (h.calls[callId], ApproveCall(h, callId, ownerId, now));
      var (call, h', settled) := (row.call, run.committed[0], run.committed[0].calls[callId]);
      var decision := Decision(settled.status, row.risk, settled.authorization);
      && row.status == Pending && settled.status != Pending
      && settled == row.(status := settled.status, authorization := settled.authorization)
      && h' == Settle(h, callId, settled.status, settled.authorization)
      && run == ThenJobs(h', [h'], if settled.status == Approved
           then DispatchAfterToolApproval(h.jobs, call.jobId, call.runnerId, call.leaseId, now)
           else RedispatchAfterDeniedToolCall(h.jobs, call.jobId, call.runnerId, call.leaseId, now), decision)
  {
  }

  /** What the settled row of an approval holds. */
  lemma ApprovalAuthorizes(h: Hub, callId: Id, ownerId: string, now: Time)
    requires ApproveCall(h, callId, ownerId, now).committed != []
    ensures callId in h.calls && OnCurrentLease(h.jobs, h.calls[callId].call)
    ensures var (row, h') := (h.calls[callId], ApproveCall(h, callId, ownerId, now).committed[0]);
      && callId in h'.calls
      && var (spec, settled) := (h.jobs.jobs[row.call.jobId].spec.value, h'.calls[callId]);
         if Grants(h, callId, ownerId, now)
         then settled.status == Approved
              && Authorize(row.call, row.digest, row.risk, ownerId, spec.leaseExpiresAt, now).Ok?
              && settled.authorization == Some(Authorize(row.call, row.digest, row.risk, ownerId, spec.leaseExpiresAt, now).value)
         else settled.status == Denied && settled.authorization == None
  {
  }

  lemma SettledRowIsOk(w: World, callId: Id, row: Row, settled: Row, ownerId: string)
    requires Inv(w) && RowOk(w, callId, row) && OnCurrentLease(w.hub.jobs, row.call)
    requires settled == row.(status := settled.status, authorization := settled.authorization)
    requires
      var spec := w.hub.jobs.jobs[row.call.jobId].spec.value;
      || (settled.status == Denied && settled.authorization == None)
      || (settled.status == Approved && row.digest in w.approvedCalls
          && Authorize(row.call, row.digest, row.risk, ownerId, spec.leaseExpiresAt, w.clock).Ok?
          && settled.authorization == Some(Authorize(row.call, row.digest, row.risk, ownerId, spec.leaseExpiresAt, w.clock).value))
    ensures RowOk(w, callId, settled)
  {
    RowOnCurrentLease(w, settled);
  }

  lemma ApproveIsGood(w: World, callId: Id, ownerId: string)
    requires Inv(w) && (Grants(w.hub, callId, ownerId, w.clock) ==> w.hub.calls[callId].digest in w.approvedCalls)
    ensures GoodRun(w, ApproveCall(w.hub, callId, ownerId, w.clock).committed)
  {
    var run := ApproveCall(w.hub, callId, ownerId, w.clock);
    if run.committed != [] {
      ApprovalSettles(w.hub, callId, ownerId, w.clock);
      ApprovalAuthorizes(w.hub, callId, ownerId, w.clock);
      var (row, settled) := (w.hub.calls[callId], run.committed[0].calls[callId]);
      assert RowOk(w, callId, row);
      SettledRowIsOk(w, callId, row, settled, ownerId);
      SettleThenJobsIsGood(w, callId, settled.status, settled.authorization, Decision(settled.status, row.risk, settled.authorization));
    }
  }

  lemma DenyIsGood(w: World, callId: Id)
    requires Inv(w)
    ensures Good(w, Settle(w.hub, callId, Denied, None))
  {
    if callId in w.hub.calls {
      assert RowOk(w, callId, w.hub.calls[callId]);
      SettleIsGood(w, callId, Denied, None);
    } else {
      SameIsGood(w);
    }
  }

  lemma DenyThenRedispatchIsGood(w: World, call: Call)
    requires Inv(w)
    ensures var denied := Settle(w.hub, call.callId, Denied, None);
      && GoodRun(w, [denied])
      && GoodRun(w, ThenJobs(denied, [denied], RedispatchAfterDeniedToolCall(w.hub.jobs, call.jobId, call.runnerId, call.leaseId, w.clock), ()).committed)
  {
    var denied := Settle(w.hub, call.callId, Denied, None);
    DenyIsGood(w, call.callId);
    GoodSingle(w, denied);
    RedispatchIsGood(Record(w, denied), call.jobId, call.runnerId, call.leaseId);
    GoodThenJobs(w, denied, RedispatchAfterDeniedToolCall(w.hub.jobs, call.jobId, call.runnerId, call.leaseId, w.clock), ());
  }

  lemma ReconcileRowIsGood(w: World, row: Row)
    requires Inv(w)
    ensures GoodRun(w, ReconcileRow(w.hub, row, w.clock).committed)
  {
    var call := row.call;
    if row.status == Pending && StillHeld(w.hub.jobs, call, w.clock) {
      WaitIsGood(w, call.jobId, call.runnerId, call.leaseId);
      GoodJobsOnly(w, WaitForToolApproval(w.hub.jobs, call.jobId, call.runnerId, call.leaseId, w.clock), ());
    } else if row.status == Approved && DecisionOf(row, w.clock).status == Approved {
      DispatchIsGood(w, call.jobId, call.runnerId, call.leaseId);
      GoodJobsOnly(w, DispatchAfterToolApproval(w.hub.jobs, call.jobId, call.runnerId, call.leaseId, w.clock), ());
    } else {
      DenyThenRedispatchIsGood(w, call);
    }
  }

  lemma {:induction false} RecordAllIs(w: World, hubs: seq<Hub>)
    ensures RecordAll(w, hubs).hub == After(w.hub, hubs) && RecordAll(w, hubs).clock == w.clock
    decreases |hubs|
  {
    if hubs != [] {
      RecordAllIs(Record(w, hubs[0]), hubs[1..]);
    }
  }

  lemma {:induction false} ReconcileRowsIsGood(w: World, rows: seq<Row>)
    requires Inv(w)
    ensures GoodRun(w, ReconcileRows(w.hub, rows, w.clock).committed)
    decreases |rows|
  {
    if rows == [] {
      return;
    }
    var first := ReconcileRow(w.hub, rows[0], w.clock);
    ReconcileRowIsGood(w, rows[0]);
    if first.result.Ok? {
      var w' := RecordAll(w, first.committed);
      RecordAllIs(w, first.committed);
      assert first.committed[..|first.committed|] == first.committed;
      GoodRunKeeps(w, first.committed, |first.committed|);
      ReconcileRowsIsGood(w', rows[1..]);
      EachAppend(Good, w, first.committed, ReconcileRows(w'.hub, rows[1..], w.clock).committed);
    }
  }

  lemma OpIsGood(w: World, op: Op)
    requires Inv(w) && (op.ApproveJob? ==> op.jobId in w.approvedJobs)
    requires op.ApproveTool? && Grants(w.hub, op.callId, op.ownerId, w.clock) ==> w.hub.calls[op.callId].digest in w.approvedCalls
    ensures GoodRun(w, Commits(w.hub, op, w.clock))
  {
    match op {
      case EvaluateTool(unavailable, call) => EvaluateIsGood(w, unavailable, call);
      case ApproveTool(callId, ownerId) => ApproveIsGood(w, callId, ownerId);
      case Reopen(rows) => ReconcileRowsIsGood(w, rows);
      case _ => JobOpIsGood(w, op);
    }
  }

  /** Every step, complete or cut short by a crash, keeps the invariant and takes nothing back. */
  lemma NextIsGood(w: World, s: Step)
    requires Inv(w)
    ensures Inv(Next(w, s)) && Extends(w.hub, Next(w, s).hub)
  {
    if !Possible(w, s) || s.commits == 0 {
      SameIsGood(w);
    } else {
      var w' := Noted(w, s.op, s.now);
      NotedKeepsInv(w, s.op, s.now);
      NotedNotes(w, s.op, s.now);
      OpIsGood(w', s.op);
      GoodRunKeeps(w', Commits(w.hub, s.op, s.now), s.commits);
    }
  }

  lemma {:induction false} RunAllIsGood(w: World, steps: seq<Step>)
    requires Inv(w)
    ensures Inv(RunAll(w, steps)) && Extends(w.hub, RunAll(w, steps).hub)
    decreases |steps|
  {
    if steps == [] {
      SameIsGood(w);
    } else {
      NextIsGood(w, steps[0]);
      RunAllIsGood(Next(w, steps[0]), steps[1..]);
      ExtendsTrans(w.hub, Next(w, steps[0]).hub, RunAll(w, steps).hub);
    }
  }

  lemma FreshIsGood(clock: Time)
    ensures Inv(Fresh(clock))
  {
  }
}
