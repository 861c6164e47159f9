/**
 The Job table of the Hub. Each operation runs in one SQLite transaction, so it either
 yields a new table or, when the source throws, leaves the table as it was.
 UUIDs drawn for Jobs and leases are numbered by `minted`, so no draw repeats.
 */
module Jobs {
  import opened Wrappers
  import Utf8

  type Id = nat
  type Time = int   // milliseconds

  const LEASE_MS: int := 5 * 60_000
  const SPEC_MS: int := 60 * 60_000

  datatype Tool = Agent | Codex | Pi | Claude

  datatype Risk = R0 | R1 | R2 | R3

  datatype JobState =
    | New | Planning | WaitApproval | Dispatched | Running | WaitUser
    | Unknown | Reconciling | Succeeded | Failed | Cancelled

  datatype Request = Request(
    idempotencyKey: Id, workspaceId: string, tool: Tool, operation: string, prompt: string, limits: seq<nat>)

  /** The fields of a signed spec that differ from one signature to the next. */
  datatype Spec = Spec(leaseId: Id, leaseExpiresAt: Time, expiresAt: Time)

  datatype Job = Job(
    runnerId: Id, request: Request, risk: Risk, status: JobState, spec: Option<Spec>,
    lastSequence: int, createdAt: Time)

  /** The message of an error event may be missing. */
  datatype EventBody =
    | StateEvent(state: JobState)
    | OutputEvent(chunk: Utf8.Text)
    | ErrorEvent(message: Option<Utf8.Text>)
    | ArtifactEvent(content: string)

  datatype JobEvent = JobEvent(
    eventId: Id, jobId: Id, runnerId: Id, leaseId: Id, sequence: nat, body: EventBody)

  /** `byKey` and `eventIds` are the UNIQUE indexes on idempotency_key and event_id. */
  datatype Table = Table(
    jobs: map<Id, Job>, byKey: map<Id, Id>, events: map<(Id, int), JobEvent>, eventIds: set<Id>, minted: nat)

  datatype Refusal =
    | NotFound | NotBound | LeaseExpired | WrongState | InvalidTransition
    | SequenceConflict | SequenceGap | DuplicateEventId | DifferentRequest | NoSpec
    | StaleRequest | DifferentContent | NotAwaitingClearance | BadReason

  predicate Terminal(status: JobState) {
    status in {Succeeded, Failed, Cancelled}
  }

  /** The states a Runner's state event may move a Job to. */
  function AllowedNext(current: JobState): set<JobState> {
    match current
    case New => {Planning, Cancelled}
    case Planning => {WaitApproval, Dispatched, Failed, Cancelled}
    case WaitApproval => {Dispatched, Running, Cancelled}
    case Dispatched => {Running, Unknown, Cancelled}
    case Running => {WaitApproval, WaitUser, Succeeded, Failed, Cancelled, Unknown, Reconciling}
    case WaitUser => {Running, Cancelled, Unknown}
    case Unknown => {Reconciling, Cancelled}
    case Reconciling => {Running, Succeeded, Failed, Cancelled, Unknown}
    case Succeeded => {}
    case Failed => {}
    case Cancelled => {}
  }

  function NewSpec(leaseId: Id, now: Time): Spec {
    Spec(leaseId, now + LEASE_MS, now + SPEC_MS)
  }

  function Put(t: Table, jobId: Id, job: Job): Table {
    t.(jobs := t.jobs[jobId := job])
  }

  function SetStatus(t: Table, jobId: Id, status: JobState): Table
    requires jobId in t.jobs
  {
    Put(t, jobId, t.jobs[jobId].(status := status))
  }

  /** Dispatches the Job under a newly signed spec. */
  function Sign(t: Table, jobId: Id, now: Time): Table
    requires jobId in t.jobs
  {
    Put(t, jobId, t.jobs[jobId].(status := Dispatched, spec := Some(NewSpec(t.minted, now)))).(minted := t.minted + 1)
  }

  predicate Bound(t: Table, jobId: Id, runnerId: Id, leaseId: Id) {
    jobId in t.jobs && t.jobs[jobId].runnerId == runnerId
    && t.jobs[jobId].spec.Some? && t.jobs[jobId].spec.value.leaseId == leaseId
  }

  predicate AgentWaits(t: Table, jobId: Id, runnerId: Id, leaseId: Id) {
    Bound(t, jobId, runnerId, leaseId) && t.jobs[jobId].status == WaitApproval && t.jobs[jobId].request.tool == Agent
  }

  // ---- The transactions ----

  predicate SameRequest(job: Job, runnerId: Id, request: Request) {
    job.runnerId == runnerId && job.request == request
  }

  /** `signedAt` is the clock reading inside the signature, which create takes separately. */
  function Create(t: Table, runnerId: Id, request: Request, createdAt: Time, signedAt: Time): Result<(Table, Id), Refusal> {
    if request.idempotencyKey in t.byKey then
      var jobId := t.byKey[request.idempotencyKey];
      if jobId !in t.jobs then Err(NotFound)
      else if SameRequest(t.jobs[jobId], runnerId, request) then Ok((t, jobId)) else Err(DifferentRequest)
    else
      var jobId := t.minted;
      var agent := request.tool == Agent;
      var job := if agent then Job(runnerId, request, R0, Dispatched, Some(NewSpec(jobId + 1, signedAt)), -1, createdAt)
                 else Job(runnerId, request, R1, WaitApproval, None, -1, createdAt);
      Ok((Put(t, jobId, job).(byKey := t.byKey[request.idempotencyKey := jobId], minted := jobId + if agent then 2 else 1), jobId))
  }

  function Approve(t: Table, jobId: Id, now: Time): Result<Table, Refusal> {
    if jobId !in t.jobs then Err(NotFound)
    else if t.jobs[jobId].status != WaitApproval || t.jobs[jobId].risk != R1 then Err(WrongState)
    else Ok(Sign(t, jobId, now))
  }

  function WaitForToolApproval(t: Table, jobId: Id, runnerId: Id, leaseId: Id, now: Time): Result<Table, Refusal> {
    if jobId !in t.jobs then Err(NotFound)
    else if !Bound(t, jobId, runnerId, leaseId) || t.jobs[jobId].request.tool != Agent then Err(NotBound)
    else if t.jobs[jobId].spec.value.leaseExpiresAt <= now then Err(LeaseExpired)
    else match t.jobs[jobId].status
      case WaitApproval => Ok(t)
      case Running => Ok(SetStatus(t, jobId, WaitApproval))
      case Dispatched => Ok(SetStatus(t, jobId, WaitApproval))
      case _ => Err(WrongState)
  }

  function DispatchAfterToolApproval(t: Table, jobId: Id, runnerId: Id, leaseId: Id, now: Time): Result<Table, Refusal> {
    if jobId !in t.jobs then Err(NotFound)
    else if !AgentWaits(t, jobId, runnerId, leaseId) then Err(NotBound)
    else if t.jobs[jobId].spec.value.leaseExpiresAt <= now then Err(LeaseExpired)
    else Ok(SetStatus(t, jobId, Dispatched))
  }

  function RedispatchAfterDeniedToolCall(t: Table, jobId: Id, runnerId: Id, leaseId: Id, now: Time): Result<Table, Refusal> {
    if jobId !in t.jobs then Err(NotFound)
    else if !AgentWaits(t, jobId, runnerId, leaseId) then Err(NotBound)
    else if t.jobs[jobId].spec.value.leaseExpiresAt <= now then Ok(Sign(t, jobId, now))
    else Ok(SetStatus(t, jobId, Dispatched))
  }

  predicate AwaitsRunner(job: Job, runnerId: Id) {
    job.runnerId == runnerId && job.status == Dispatched
  }

  /** The row `SELECT … WHERE runner_id = ? AND status = 'DISPATCHED' ORDER BY created_at LIMIT 1` may return. */
  predicate OldestDispatched(t: Table, runnerId: Id, jobId: Id) {
    && jobId in t.jobs && AwaitsRunner(t.jobs[jobId], runnerId)
    && forall j <- t.jobs | AwaitsRunner(t.jobs[j], runnerId) :: t.jobs[jobId].createdAt <= t.jobs[j].createdAt
  }

  function Pull(t: Table, jobId: Id, now: Time): Result<Table, Refusal>
    requires jobId in t.jobs && t.jobs[jobId].status == Dispatched
  {
    if t.jobs[jobId].spec.None? then Err(NoSpec)
    else if t.jobs[jobId].spec.value.leaseExpiresAt <= now then Ok(Sign(t, jobId, now))
    else Ok(t)
  }

  datatype Disposition = Ready | Hold | Discard

  function RecoverAgent(t: Table, jobId: Id, runnerId: Id, leaseId: Id, now: Time): Result<(Table, Disposition), Refusal> {
    if jobId !in t.jobs then Err(NotFound)
    else
      var job := t.jobs[jobId];
      if job.runnerId != runnerId || job.request.tool != Agent || job.spec.None? then Err(NotBound)
      else if Terminal(job.status) then Ok((t, Discard))
      else if job.status == WaitApproval then Ok((t, Hold))
      else if job.status == Dispatched then Ok((t, Ready))
      else if job.status != Running || job.spec.value.leaseId != leaseId then Err(WrongState)
      else if job.spec.value.leaseExpiresAt <= now then Ok((Sign(t, jobId, now), Ready))
      else Ok((SetStatus(t, jobId, Dispatched), Ready))
  }

  /** The result is the new table, and whether the event was a duplicate. */
  function AcceptEvent(t: Table, e: JobEvent, now: Time): Result<(Table, bool), Refusal> {
    if e.jobId !in t.jobs then Err(NotFound)
    else
      var job := t.jobs[e.jobId];
      if !Bound(t, e.jobId, e.runnerId, e.leaseId) then Err(NotBound)
      else if job.spec.value.leaseExpiresAt < now then Err(LeaseExpired)
      else if e.sequence <= job.lastSequence then
        if (e.jobId, e.sequence) in t.events && t.events[(e.jobId, e.sequence)] == e then Ok((t, true))
        else Err(SequenceConflict)
      else if e.sequence != job.lastSequence + 1 then Err(SequenceGap)
      else if e.body.StateEvent? && e.body.state !in AllowedNext(job.status) then Err(InvalidTransition)
      else if e.eventId in t.eventIds then Err(DuplicateEventId)
      else
        var next := if e.body.StateEvent? then e.body.state else job.status;
        var t' := t.(events := t.events[(e.jobId, e.sequence) := e], eventIds := t.eventIds + {e.eventId});
        Ok((Put(t', e.jobId, job.(status := next, lastSequence := e.sequence)), false))
  }

  function Reconcile(t: Table, jobId: Id, runnerId: Id, leaseId: Id, now: Time): Result<Table, Refusal> {
    if jobId !in t.jobs then Err(NotFound)
    else if !Bound(t, jobId, runnerId, leaseId) then Err(NotBound)
    else if t.jobs[jobId].spec.value.leaseExpiresAt < now then Err(LeaseExpired)
    else if t.jobs[jobId].status in {Running, Dispatched} then Ok(SetStatus(t, jobId, Reconciling))
    else Ok(t)
  }

  function Cancel(t: Table, jobId: Id): Result<Table, Refusal> {
    if jobId !in t.jobs then Err(NotFound)
    else if Terminal(t.jobs[jobId].status) then Err(WrongState)
    else Ok(SetStatus(t, jobId, Cancelled))
  }

  /** What artifact upload, model access and tool evaluation ask first. */
  predicate ActiveLease(t: Table, jobId: Id, runnerId: Id, leaseId: Id, now: Time) {
    && Bound(t, jobId, runnerId, leaseId)
    && now <= t.jobs[jobId].spec.value.leaseExpiresAt
    && !Terminal(t.jobs[jobId].status)
  }

  /** The Job's stored events up to this sequence number, ordered by it. */
  function EventsUpTo(t: Table, jobId: Id, last: int): seq<JobEvent>
    decreases last + 1
  {
    if last < 0 then []
    else EventsUpTo(t, jobId, last - 1) + if (jobId, last) in t.events then [t.events[(jobId, last)]] else []
  }

  /** listEvents: no event is stored beyond the Job's last sequence number. */
  function ListEvents(t: Table, jobId: Id): seq<JobEvent>
    requires jobId in t.jobs
  {
    EventsUpTo(t, jobId, t.jobs[jobId].lastSequence)
  }

  // ---- The registry ----

  /** A method that returns the Job it updated has committed `outcome`, or thrown and changed nothing. */
  ghost predicate CommitsOrThrows(outcome: Result<Table, Refusal>, jobId: Id, before: Table, after: Table, r: Result<Job, Refusal>) {
    match outcome
    case Ok(t) => after == t && jobId in t.jobs && r == Ok(t.jobs[jobId])
    case Err(e) => after == before && r == Err(e)
  }

  ghost predicate PullsJob(before: Table, jobId: Id, runnerId: Id, now: Time, after: Table, r: Result<Option<(Id, Spec)>, Refusal>) {
    && OldestDispatched(before, runnerId, jobId)
    && match Pull(before, jobId, now)
       case Ok(t) => after == t && jobId in t.jobs && t.jobs[jobId].spec.Some? && r == Ok(Some((jobId, t.jobs[jobId].spec.value)))
       case Err(e) => after == before && r == Err(e)
  }

  class SqliteJobRegistry {
    var jobs: map<Id, Job>
    var byKey: map<Id, Id>
    var events: map<(Id, int), JobEvent>
    var eventIds: set<Id>
    var minted: nat

    function State(): Table
      reads this
    {
      Table(jobs, byKey, events, eventIds, minted)
    }

    constructor ()
      ensures State() == Table(map[], map[], map[], {}, 0)
    {
      jobs, byKey, events, eventIds, minted := map[], map[], map[], {}, 0;
    }

    method SignSpec(now: Time) returns (spec: Spec)
      modifies this`minted
      ensures spec == NewSpec(old(minted), now) && minted == old(minted) + 1
    {
      spec := Spec(minted, now + LEASE_MS, now + SPEC_MS);
      minted := minted + 1;
    }

    method CreateJob(runnerId: Id, request: Request, createdAt: Time, signedAt: Time) returns (r: Result<Id, Refusal>)
      modifies this
      ensures match Create(old(State()), runnerId, request, createdAt, signedAt)
              case Ok((t, jobId)) => State() == t && r == Ok(jobId)
              case Err(e) => State() == old(State()) && r == Err(e)
    {
      if request.idempotencyKey in byKey {
        var existing := byKey[request.idempotencyKey];
        if existing !in jobs { return Err(NotFound); }
        var job := jobs[existing];
        return if job.runnerId == runnerId && job.request == request then Ok(existing) else Err(DifferentRequest);
      }
      var jobId := minted;
      minted := minted + 1;
      byKey := byKey[request.idempotencyKey := jobId];
      if request.tool == Agent {
        var spec := SignSpec(signedAt);
        jobs := jobs[jobId := Job(runnerId, request, R0, Dispatched, Some(spec), -1, createdAt)];
      } else {
        jobs := jobs[jobId := Job(runnerId, request, R1, WaitApproval, None, -1, createdAt)];
      }
      r := Ok(jobId);
    }

    method ApproveJob(jobId: Id, now: Time) returns (r: Result<Job, Refusal>)
      modifies this
      ensures CommitsOrThrows(Approve(old(State()), jobId, now), jobId, old(State()), State(), r)
    {
      if jobId !in jobs { return Err(NotFound); }
      var job := jobs[jobId];
      if job.status != WaitApproval || job.risk != R1 { return Err(WrongState); }
      var spec := SignSpec(now);
      jobs := jobs[jobId := job.(status := Dispatched, spec := Some(spec))];
      r := Ok(jobs[jobId]);
    }

    method Wait(jobId: Id, runnerId: Id, leaseId: Id, now: Time) returns (r: Result<Job, Refusal>)
      modifies this`jobs
      ensures CommitsOrThrows(WaitForToolApproval(old(State()), jobId, runnerId, leaseId, now), jobId, old(State()), State(), r)
    {
      if jobId !in jobs { return Err(NotFound); }
      var job := jobs[jobId];
      if job.runnerId != runnerId || job.spec.None? || job.spec.value.leaseId != leaseId || job.request.tool != Agent {
        return Err(NotBound);
      }
      if job.spec.value.leaseExpiresAt <= now { return Err(LeaseExpired); }
      if job.status == WaitApproval { return Ok(job); }
      if job.status != Running && job.status != Dispatched { return Err(WrongState); }
      jobs := jobs[jobId := job.(status := WaitApproval)];
      r := Ok(jobs[jobId]);
    }

    method Dispatch(jobId: Id, runnerId: Id, leaseId: Id, now: Time) returns (r: Result<Job, Refusal>)
      modifies this`jobs
      ensures CommitsOrThrows(DispatchAfterToolApproval(old(State()), jobId, runnerId, leaseId, now), jobId, old(State()), State(), r)
    {
      if jobId !in jobs { return Err(NotFound); }
      var job := jobs[jobId];
      if job.runnerId != runnerId || job.spec.None? || job.spec.value.leaseId != leaseId
         || job.status != WaitApproval || job.request.tool != Agent {
        return Err(NotBound);
      }
      if job.spec.value.leaseExpiresAt <= now { return Err(LeaseExpired); }
      jobs := jobs[jobId := job.(status := Dispatched)];
      r := Ok(jobs[jobId]);
    }

    method Redispatch(jobId: Id, runnerId: Id, leaseId: Id, now: Time) returns (r: Result<Job, Refusal>)
      modifies this
      ensures CommitsOrThrows(RedispatchAfterDeniedToolCall(old(State()), jobId, runnerId, leaseId, now), jobId, old(State()), State(), r)
    {
      if jobId !in jobs { return Err(NotFound); }
      var job := jobs[jobId];
      if job.runnerId != runnerId || job.spec.None? || job.spec.value.leaseId != leaseId
         || job.status != WaitApproval || job.request.tool != Agent {
        return Err(NotBound);
      }
      var renewed := job.spec.value;
      if renewed.leaseExpiresAt <= now { renewed := SignSpec(now); }
      jobs := jobs[jobId := job.(status := Dispatched, spec := Some(renewed))];
      r := Ok(jobs[jobId]);
    }

    method PullJob(runnerId: Id, now: Time) returns (r: Result<Option<(Id, Spec)>, Refusal>)
      modifies this
      ensures r == Ok(None) <==> forall j <- old(jobs) :: !AwaitsRunner(old(jobs)[j], runnerId)
      ensures r == Ok(None) ==> State() == old(State())
      ensures r != Ok(None) ==> exists jobId :: PullsJob(old(State()), jobId, runnerId, now, State(), r)
    {
      var ready := set j <- jobs | AwaitsRunner(jobs[j], runnerId);
      if ready == {} {
        assert forall j <- jobs :: AwaitsRunner(jobs[j], runnerId) ==> j in ready;
        return Ok(None);
      }
      EarliestExists(jobs, ready);
      var jobId :| jobId in ready && forall j <- ready :: jobs[jobId].createdAt <= jobs[j].createdAt;
      assert OldestDispatched(State(), runnerId, jobId);
      var job := jobs[jobId];
      if job.spec.None? {
        assert PullsJob(old(State()), jobId, runnerId, now, State(), Err(NoSpec));
        return Err(NoSpec);
      }
      var spec := job.spec.value;
      if spec.leaseExpiresAt <= now {
        spec := SignSpec(now);
        jobs := jobs[jobId := job.(spec := Some(spec))];
      }
      r := Ok(Some((jobId, spec)));
      assert PullsJob(old(State()), jobId, runnerId, now, State(), r);
    }

    method Recover(jobId: Id, runnerId: Id, leaseId: Id, now: Time) returns (r: Result<Disposition, Refusal>)
      modifies this
      ensures match RecoverAgent(old(State()), jobId, runnerId, leaseId, now)
              case Ok((t, d)) => State() == t && r == Ok(d)
              case Err(e) => State() == old(State()) && r == Err(e)
    {
      if jobId !in jobs { return Err(NotFound); }
      var job := jobs[jobId];
      if job.runnerId != runnerId || job.request.tool != Agent || job.spec.None? { return Err(NotBound); }
      if Terminal(job.status) { return Ok(Discard); }
      if job.status == WaitApproval { return Ok(Hold); }
      if job.status == Dispatched { return Ok(Ready); }
      if job.status != Running || job.spec.value.leaseId != leaseId { return Err(WrongState); }
      if job.spec.value.leaseExpiresAt <= now {
        var renewed := SignSpec(now);
        jobs := jobs[jobId := job.(status := Dispatched, spec := Some(renewed))];
      } else {
        jobs := jobs[jobId := job.(status := Dispatched)];
      }
      r := Ok(Ready);
    }

    method Accept(e: JobEvent, now: Time) returns (r: Result<bool, Refusal>)
      modifies this
      ensures match AcceptEvent(old(State()), e, now)
              case Ok((t, duplicate)) => State() == t && r == Ok(duplicate)
              case Err(error) => State() == old(State()) && r == Err(error)
    {
      if e.jobId !in jobs { return Err(NotFound); }
      var job := jobs[e.jobId];
      if job.runnerId != e.runnerId || job.spec.None? || job.spec.value.leaseId != e.leaseId { return Err(NotBound); }
      if job.spec.value.leaseExpiresAt < now { return Err(LeaseExpired); }
      if e.sequence <= job.lastSequence {
        var key := (e.jobId, e.sequence);
        return if key in events && events[key] == e then Ok(true) else Err(SequenceConflict);
      }
      if e.sequence != job.lastSequence + 1 { return Err(SequenceGap); }
      var next := job.status;
      if e.body.StateEvent? {
        if e.body.state !in AllowedNext(job.status) { return Err(InvalidTransition); }
        next := e.body.state;
      }
      if e.eventId in eventIds { return Err(DuplicateEventId); }
      events := events[(e.jobId, e.sequence) := e];
      eventIds := eventIds + {e.eventId};
      jobs := jobs[e.jobId := job.(status := next, lastSequence := e.sequence)];
      r := Ok(false);
    }

    method ReconcileJob(jobId: Id, runnerId: Id, leaseId: Id, now: Time) returns (r: Result<Job, Refusal>)
      modifies this`jobs
      ensures CommitsOrThrows(Reconcile(old(State()), jobId, runnerId, leaseId, now), jobId, old(State()), State(), r)
    {
      if jobId !in jobs { return Err(NotFound); }
      var job := jobs[jobId];
      if job.runnerId != runnerId || job.spec.None? || job.spec.value.leaseId != leaseId { return Err(NotBound); }
      if job.spec.value.leaseExpiresAt < now { return Err(LeaseExpired); }
      if job.status == Running || job.status == Dispatched {
        jobs := jobs[jobId := job.(status := Reconciling)];
      }
      r := Ok(jobs[jobId]);
    }

    method CancelJob(jobId: Id) returns (r: Result<Job, Refusal>)
      modifies this`jobs
      ensures CommitsOrThrows(Cancel(old(State()), jobId), jobId, old(State()), State(), r)
    {
      if jobId !in jobs { return Err(NotFound); }
      if Terminal(jobs[jobId].status) { return Err(WrongState); }
      jobs := jobs[jobId := jobs[jobId].(status := Cancelled)];
      r := Ok(jobs[jobId]);
    }
  }

  lemma {:induction false} EarliestExists(jobs: map<Id, Job>, ready: set<Id>)
    requires ready != {} && ready <= jobs.Keys
    ensures exists jobId <- ready :: forall j <- ready :: jobs[jobId].createdAt <= jobs[j].createdAt
  {
    var x :| x in ready;
    if ready == {x} {
      return;
    }
    EarliestExists(jobs, ready - {x});
    var y :| y in ready - {x} && forall j <- ready - {x} :: jobs[y].createdAt <= jobs[j].createdAt;
    var least := if jobs[x].createdAt <= jobs[y].createdAt then x else y;
    assert forall j <- ready :: j == x || j in ready - {x};
    assert least in ready && forall j <- ready :: jobs[least].createdAt <= jobs[j].createdAt;
  }
}
