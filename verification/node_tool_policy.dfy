/**
 The Hub's policy for node tool calls. A call is classified by its tool name, held for
 the Owner when it is not R0, and authorised by a signature over its exact digest.
 */
module NodeTools {
  import opened Wrappers
  import opened Jobs
  import NotificationText
  import Utf8

  const TOOL_AUTHORITY_MS: int := 5 * 60_000
  const PROPOSAL_WINDOW_MS: int := 5 * 60_000

  datatype ToolName =
    | SystemSnapshot | ProcessList | ServiceStatus | JournalRead | NetworkSockets | FileRead | FileSearch
    | FileWrite | ServiceRestart | ProcessSignal | CommandExec | FileDelete

  datatype Call = Call(
    callId: Id, jobId: Id, runnerId: Id, leaseId: Id, name: ToolName,
    arguments: string, reason: Utf8.Text, requestedAt: Time)

  /** SHA-256 of the canonical call, taken as injective. */
  datatype Digest = Sha256(call: Call)

  const MAX_REASON_BYTES: nat := 2_048

  predicate ValidReason(reason: Utf8.Text) {
    NotificationText.Trim(reason) != [] && Utf8.ByteLength(reason) <= MAX_REASON_BYTES && NotificationText.NUL !in reason
  }

  datatype CallStatus = Pending | Approved | Denied

  datatype Authorization = Authorization(
    callId: Id, jobId: Id, runnerId: Id, leaseId: Id, digest: Digest, risk: Risk,
    approvedBy: string, approvedAt: Time, expiresAt: Time)

  datatype Row = Row(call: Call, digest: Digest, risk: Risk, status: CallStatus, authorization: Option<Authorization>)

  datatype Decision = Decision(status: CallStatus, risk: Risk, authorization: Option<Authorization>)

  datatype Hub = Hub(jobs: Table, calls: map<Id, Row>)

  /** The states an operation commits, in order, and what it returns or throws. An operation here spans several
      transactions, so a crash leaves the database in any one of these states. */
  datatype Run<+T> = Run(committed: seq<Hub>, result: Result<T, Refusal>)

  function After(h: Hub, committed: seq<Hub>): Hub {
    if committed == [] then h else committed[|committed| - 1]
  }

  function RiskOf(name: ToolName): Risk {
    match name
    case FileWrite => R1
    case ServiceRestart => R2
    case ProcessSignal => R2
    case CommandExec => R2
    case FileDelete => R3
    case _ => R0
  }

  function Min(a: int, b: int): int {
    if a < b then a else b
  }

  function Authorize(call: Call, digest: Digest, risk: Risk, approvedBy: string, leaseExpiresAt: Time, now: Time): Result<Authorization, Refusal> {
    var expiresAt := Min(now + TOOL_AUTHORITY_MS, leaseExpiresAt);
    if expiresAt <= now then Err(LeaseExpired)
    else Ok(Authorization(call.callId, call.jobId, call.runnerId, call.leaseId, digest, risk, approvedBy, now, expiresAt))
  }

  function DecisionOf(row: Row, now: Time): Decision {
    if row.status != Approved then Decision(row.status, row.risk, None)
    else if row.authorization.None? || row.authorization.value.expiresAt <= now then Decision(Denied, row.risk, None)
    else Decision(Approved, row.risk, row.authorization)
  }

  function NewRow(call: Call, status: CallStatus, authorization: Option<Authorization>): Row {
    Row(call, Sha256(call), RiskOf(call.name), status, authorization)
  }

  function Insert(h: Hub, row: Row): Hub {
    h.(calls := h.calls[row.call.callId := row])
  }

  function Settle(h: Hub, callId: Id, status: CallStatus, authorization: Option<Authorization>): Hub {
    if callId in h.calls then h.(calls := h.calls[callId := h.calls[callId].(status := status, authorization := authorization)])
    else h
  }

  /** The Job the call is bound to is an agent Job whose current lease is the call's. */
  predicate OnCurrentLease(t: Table, call: Call) {
    call.jobId in t.jobs && t.jobs[call.jobId].request.tool == Agent
    && t.jobs[call.jobId].spec.Some? && t.jobs[call.jobId].spec.value.leaseId == call.leaseId
  }

  /** Ends an operation with a Job transaction after the states already committed. */
  function ThenJobs<T>(h: Hub, committed: seq<Hub>, update: Result<Table, Refusal>, value: T): Run<T> {
    match update
    case Ok(t) => Run(committed + [h.(jobs := t)], Ok(value))
    case Err(e) => Run(committed, Err(e))
  }

  function Evaluate(h: Hub, unavailable: set<ToolName>, call: Call, now: Time): Run<Decision> {
    var risk := RiskOf(call.name);
    if !ValidReason(call.reason) then Run([], Err(BadReason))
    else if !ActiveLease(h.jobs, call.jobId, call.runnerId, call.leaseId, now) then Run([], Err(NotBound))
    else if !OnCurrentLease(h.jobs, call) then Run([], Err(NotBound))
    else if call.callId in h.calls then
      var decision := DecisionOf(h.calls[call.callId], now);
      if h.calls[call.callId].digest != Sha256(call) then Run([], Err(DifferentContent))
      else if decision.status == Pending then
        ThenJobs(h, [], WaitForToolApproval(h.jobs, call.jobId, call.runnerId, call.leaseId, now), decision)
      else Run([], Ok(decision))
    else if now - call.requestedAt > PROPOSAL_WINDOW_MS || call.requestedAt - now > PROPOSAL_WINDOW_MS then
      Run([], Err(StaleRequest))
    else if call.name in unavailable then
      Run([Insert(h, NewRow(call, Denied, None))], Ok(Decision(Denied, risk, None)))
    else if risk == R0 then
      match Authorize(call, Sha256(call), risk, "policy", h.jobs.jobs[call.jobId].spec.value.leaseExpiresAt, now)
      case Ok(authorization) =>
        Run([Insert(h, NewRow(call, Approved, Some(authorization)))], Ok(Decision(Approved, risk, Some(authorization))))
      case Err(e) => Run([], Err(e))
    else
      var held := Insert(h, NewRow(call, Pending, None));
      ThenJobs(held, [held], WaitForToolApproval(h.jobs, call.jobId, call.runnerId, call.leaseId, now), Decision(Pending, risk, None))
  }

  function ApproveCall(h: Hub, callId: Id, ownerId: string, now: Time): Run<Decision> {
    if callId !in h.calls || h.calls[callId].status != Pending then Run([], Err(NotAwaitingClearance))
    else
      var row := h.calls[callId];
      var call := row.call;
      if !ValidReason(call.reason) then Run([], Err(BadReason))
      else if !OnCurrentLease(h.jobs, call) || h.jobs.jobs[call.jobId].status != WaitApproval then Run([], Err(NotBound))
      else
        var lease := h.jobs.jobs[call.jobId].spec.value;
        if lease.leaseExpiresAt <= now then
          var denied := Settle(h, callId, Denied, None);
          ThenJobs(denied, [denied], RedispatchAfterDeniedToolCall(h.jobs, call.jobId, call.runnerId, call.leaseId, now),
                   Decision(Denied, row.risk, None))
        else if h.jobs.jobs[call.jobId].runnerId != call.runnerId then Run([], Err(NotBound))
        else match Authorize(call, row.digest, row.risk, ownerId, lease.leaseExpiresAt, now)
          case Err(e) => Run([], Err(e))
          case Ok(authorization) =>
            var approved := Settle(h, callId, Approved, Some(authorization));
            ThenJobs(approved, [approved], DispatchAfterToolApproval(h.jobs, call.jobId, call.runnerId, call.leaseId, now),
                     Decision(Approved, row.risk, Some(authorization)))
  }

  predicate SamePendingJob(t: Table, call: Call) {
    OnCurrentLease(t, call) && t.jobs[call.jobId].status == WaitApproval
  }

  /** The held call is not orphaned: its Job lives and its lease is current and unexpired. */
  predicate StillHeld(t: Table, call: Call, now: Time) {
    OnCurrentLease(t, call) && !Terminal(t.jobs[call.jobId].status) && now < t.jobs[call.jobId].spec.value.leaseExpiresAt
  }

  /** One iteration of the restart loop; `row` is what the query returned before the loop began. */
  function ReconcileRow(h: Hub, row: Row, now: Time): Run<()> {
    var call := row.call;
    var samePending := SamePendingJob(h.jobs, call);
    var denied := Settle(h, call.callId, Denied, None);
    if row.status == Pending then
      if StillHeld(h.jobs, call, now) then
        ThenJobs(h, [], WaitForToolApproval(h.jobs, call.jobId, call.runnerId, call.leaseId, now), ())
      else if samePending then
        ThenJobs(denied, [denied], RedispatchAfterDeniedToolCall(h.jobs, call.jobId, call.runnerId, call.leaseId, now), ())
      else Run([denied], Ok(()))
    else if !samePending then Run([], Ok(()))
    else if row.status == Approved && DecisionOf(row, now).status == Approved then
      ThenJobs(h, [], DispatchAfterToolApproval(h.jobs, call.jobId, call.runnerId, call.leaseId, now), ())
    else
      ThenJobs(denied, [denied], RedispatchAfterDeniedToolCall(h.jobs, call.jobId, call.runnerId, call.leaseId, now), ())
  }

  function ReconcileRows(h: Hub, rows: seq<Row>, now: Time): Run<()>
    decreases |rows|
  {
    if rows == [] then Run([], Ok(()))
    else
      var first := ReconcileRow(h, rows[0], now);
      if first.result.Err? then first
      else
        var rest := ReconcileRows(After(h, first.committed), rows[1..], now);
        Run(first.committed + rest.committed, rest.result)
  }

  /** What `SELECT * … ORDER BY updated_at, call_id` returns, in whatever order the times give. */
  ghost predicate AllRows(calls: map<Id, Row>, rows: seq<Row>) {
    && (forall i | 0 <= i < |rows| :: rows[i].call.callId in calls && calls[rows[i].call.callId] == rows[i])
    && (forall i, j | 0 <= i < j < |rows| :: rows[i].call.callId != rows[j].call.callId)
    && (forall c <- calls :: exists i | 0 <= i < |rows| :: rows[i].call.callId == c)
  }

  class NodeToolPolicy {
    const jobs: SqliteJobRegistry
    const unavailable: set<ToolName>
    var calls: map<Id, Row>

    function State(): Hub
      reads this, jobs
    {
      Hub(jobs.State(), calls)
    }

    constructor (jobs: SqliteJobRegistry, unavailable: set<ToolName>, calls: map<Id, Row>)
      ensures this.jobs == jobs && this.unavailable == unavailable && this.calls == calls
    {
      this.jobs, this.unavailable, this.calls := jobs, unavailable, calls;
    }

    method EvaluateCall(call: Call, now: Time) returns (r: Result<Decision, Refusal>)
      modifies this, jobs
      ensures State() == After(old(State()), Evaluate(old(State()), unavailable, call, now).committed)
      ensures r == Evaluate(old(State()), unavailable, call, now).result
    {
      if !ValidReason(call.reason) { return Err(BadReason); }
      if !ActiveLease(jobs.State(), call.jobId, call.runnerId, call.leaseId, now) { return Err(NotBound); }
      var job := jobs.jobs[call.jobId];
      if job.request.tool != Agent { return Err(NotBound); }
      var risk := RiskOf(call.name);
      if call.callId in calls {
        var existing := calls[call.callId];
        if existing.digest != Sha256(call) { return Err(DifferentContent); }
        var decision := DecisionOf(existing, now);
        if decision.status == Pending {
          var held := jobs.Wait(call.jobId, call.runnerId, call.leaseId, now);
          if held.Err? { return Err(held.error); }
        }
        return Ok(decision);
      }
      if now - call.requestedAt > PROPOSAL_WINDOW_MS || call.requestedAt - now > PROPOSAL_WINDOW_MS {
        return Err(StaleRequest);
      }
      if call.name in unavailable {
        calls := calls[call.callId := Row(call, Sha256(call), risk, Denied, None)];
        return Ok(Decision(Denied, risk, None));
      }
      if risk == R0 {
        var authorization := Authorize(call, Sha256(call), risk, "policy", job.spec.value.leaseExpiresAt, now);
        if authorization.Err? { return Err(authorization.error); }
        calls := calls[call.callId := Row(call, Sha256(call), risk, Approved, Some(authorization.value))];
        return Ok(Decision(Approved, risk, Some(authorization.value)));
      }
      calls := calls[call.callId := Row(call, Sha256(call), risk, Pending, None)];
      var held := jobs.Wait(call.jobId, call.runnerId, call.leaseId, now);
      r := if held.Err? then Err(held.error) else Ok(Decision(Pending, risk, None));
    }

    method Approve(callId: Id, ownerId: string, now: Time) returns (r: Result<Decision, Refusal>)
      modifies this, jobs
      ensures State() == After(old(State()), ApproveCall(old(State()), callId, ownerId, now).committed)
      ensures r == ApproveCall(old(State()), callId, ownerId, now).result
    {
      if callId !in calls || calls[callId].status != Pending { return Err(NotAwaitingClearance); }
      var row := calls[callId];
      var call := row.call;
      if !ValidReason(call.reason) { return Err(BadReason); }
      if !SamePendingJob(jobs.State(), call) { return Err(NotBound); }
      var job := jobs.jobs[call.jobId];
      if job.spec.value.leaseExpiresAt <= now {
        calls := calls[callId := row.(status := Denied, authorization := None)];
        var sent := jobs.Redispatch(call.jobId, call.runnerId, call.leaseId, now);
        return if sent.Err? then Err(sent.error) else Ok(Decision(Denied, row.risk, None));
      }
      if job.runnerId != call.runnerId { return Err(NotBound); }
      var authorization := Authorize(call, row.digest, row.risk, ownerId, job.spec.value.leaseExpiresAt, now);
      if authorization.Err? { return Err(authorization.error); }
      calls := calls[callId := row.(status := Approved, authorization := Some(authorization.value))];
      var sent := jobs.Dispatch(call.jobId, call.runnerId, call.leaseId, now);
      r := if sent.Err? then Err(sent.error) else Ok(Decision(Approved, row.risk, Some(authorization.value)));
    }

    method DecisionFor(callId: Id, now: Time) returns (r: Option<Decision>)
      ensures r == if callId in calls then Some(DecisionOf(calls[callId], now)) else None
    {
      if callId !in calls { return None; }
      var row := calls[callId];
      if row.status == Approved && (row.authorization.None? || row.authorization.value.expiresAt <= now) {
        return Some(Decision(Denied, row.risk, None));
      }
      r := Some(Decision(row.status, row.risk, if row.status == Approved then row.authorization else None));
    }

    method ReconcileInterruptedApprovals(rows: seq<Row>, now: Time) returns (r: Result<(), Refusal>)
      modifies this, jobs
      ensures State() == After(old(State()), ReconcileRows(old(State()), rows, now).committed)
      ensures r == ReconcileRows(old(State()), rows, now).result
    {
      ghost var whole := ReconcileRows(State(), rows, now);
      ghost var start := State();
      var i := 0;
      while i < |rows|
        invariant 0 <= i <= |rows|
        invariant After(State(), ReconcileRows(State(), rows[i..], now).committed) == After(start, whole.committed)
        invariant ReconcileRows(State(), rows[i..], now).result == whole.result
      {
        assert rows[i..][1..] == rows[i + 1..];
        ghost var one := ReconcileRow(State(), rows[i], now);
        ghost var rest := ReconcileRows(After(State(), one.committed), rows[i + 1..], now);
        AfterAppend(State(), one.committed, rest.committed);
        var result := ReconcileOne(rows[i], now);
        if result.Err? { return result; }
        i := i + 1;
      }
      r := Ok(());
    }

    method ReconcileOne(row: Row, now: Time) returns (r: Result<(), Refusal>)
      modifies this, jobs
      ensures State() == After(old(State()), ReconcileRow(old(State()), row, now).committed)
      ensures r == ReconcileRow(old(State()), row, now).result
    {
      var call := row.call;
      var samePending := SamePendingJob(jobs.State(), call);
      if row.status == Pending {
        if StillHeld(jobs.State(), call, now) {
          var held := jobs.Wait(call.jobId, call.runnerId, call.leaseId, now);
          return if held.Err? then Err(held.error) else Ok(());
        }
        Deny(call.callId);
        if samePending {
          var sent := jobs.Redispatch(call.jobId, call.runnerId, call.leaseId, now);
          return if sent.Err? then Err(sent.error) else Ok(());
        }
        return Ok(());
      }
      if !samePending { return Ok(()); }
      if row.status == Approved && DecisionOf(row, now).status == Approved {
        var sent := jobs.Dispatch(call.jobId, call.runnerId, call.leaseId, now);
        return if sent.Err? then Err(sent.error) else Ok(());
      }
      Deny(call.callId);
      var sent := jobs.Redispatch(call.jobId, call.runnerId, call.leaseId, now);
      r := if sent.Err? then Err(sent.error) else Ok(());
    }

    method Deny(callId: Id)
      modifies this`calls
      ensures State() == Settle(old(State()), callId, Denied, None)
    {
      if callId in calls {
        calls := calls[callId := calls[callId].(status := Denied, authorization := None)];
      }
    }
  }

  lemma AfterAppend(h: Hub, first: seq<Hub>, second: seq<Hub>)
    ensures After(h, first + second) == After(After(h, first), second)
  {
  }
}
