/** Which tool calls need the Owner, and what the answer to a call says. */
module ToolClearance {
  import opened Wrappers
  import opened Jobs
  import opened NodeTools
  import opened HubRuns
  import opened HubGuarantees
  import NotificationText
  import Utf8

  /** The tools that only read. */
  const READ_ONLY: set<ToolName> :=
    {SystemSnapshot, ProcessList, ServiceStatus, JournalRead, NetworkSockets, FileRead, FileSearch}

  /** What each other tool may do at worst. */
  const RISKS: map<Risk, set<ToolName>> :=
    map[R0 := READ_ONLY, R1 := {FileWrite}, R2 := {ServiceRestart, ProcessSignal, CommandExec}, R3 := {FileDelete}]

  lemma RiskIsListed(name: ToolName)
    ensures RiskOf(name) in RISKS && forall r <- RISKS :: name in RISKS[r] <==> r == RiskOf(name)
  {
  }

  /** No tool that does more than read was ever authorised before the Owner granted that exact call. */
  lemma OnlyReadersRunUnasked(clock: Time, steps: seq<Step>, a: Authorization)
    requires a in Reach(clock, steps).authorizations && a.digest.call.name !in READ_ONLY
    ensures exists i | 0 <= i < |steps| :: GrantsCall(Reach(clock, steps[..i]), steps[i], a.digest)
  {
    ReachIsGood(clock, steps);
    assert AuthorizationOk(Reach(clock, steps), a);
    RiskIsListed(a.digest.call.name);
    SignedAuthorizationWasGranted(clock, steps, a);
  }

  // ---- A call that arrives ----

  /** The Runner's live agent Job is under this lease. */
  predicate AgentHolds(t: Table, call: Call) {
    && call.jobId in t.jobs && t.jobs[call.jobId].runnerId == call.runnerId && t.jobs[call.jobId].request.tool == Agent
    && t.jobs[call.jobId].spec.Some? && t.jobs[call.jobId].spec.value.leaseId == call.leaseId
    && t.jobs[call.jobId].status !in {Succeeded, Failed, Cancelled}
  }

  predicate Recent(call: Call, now: Time) {
    now - 300_000 <= call.requestedAt <= now + 300_000
  }

  /** There is something to read, it is not too long, and it holds no NUL. */
  ghost predicate GivesReason(call: Call) {
    (exists c <- call.reason :: !NotificationText.IsSpace(c)) && Utf8.ByteLength(call.reason) <= 2_048 && 0 !in call.reason
  }

  lemma ReasonIff(call: Call)
    ensures ValidReason(call.reason) <==> GivesReason(call)
  {
    NotificationText.NothingLeftIff(call.reason);
  }

  /** A new call that nothing speaks against. */
  ghost predicate Arrives(h: Hub, unavailable: set<ToolName>, call: Call, now: Time) {
    && call.callId !in h.calls && GivesReason(call) && Recent(call, now) && call.name !in unavailable
    && AgentHolds(h.jobs, call) && now < h.jobs.jobs[call.jobId].spec.value.leaseExpiresAt
  }

  /** The authority is for this very call, in somebody's name, for five minutes or what is left of the lease. */
  predicate IsAuthorityFor(a: Authorization, call: Call, approvedBy: string, lease: Spec, now: Time) {
    && a.callId == call.callId && a.jobId == call.jobId && a.runnerId == call.runnerId && a.leaseId == call.leaseId
    && a.digest.call == call && a.risk in RISKS && call.name in RISKS[a.risk]
    && a.approvedBy == approvedBy && a.approvedAt == now < a.expiresAt
    && a.expiresAt <= now + 300_000 && a.expiresAt <= lease.leaseExpiresAt && a.expiresAt in {now + 300_000, lease.leaseExpiresAt}
  }

  /** The call is stored as it came, as the only change of the stored calls. */
  predicate StoresCall(h: Hub, h': Hub, call: Call, status: CallStatus, authorization: Option<Authorization>) {
    && call.callId in h'.calls && h'.calls == h.calls[call.callId := h'.calls[call.callId]]
    && var row := h'.calls[call.callId];
       && row.call == call && row.digest.call == call && row.risk in RISKS && call.name in RISKS[row.risk]
       && row.status == status && row.authorization == authorization
  }

  /** A call that only reads is approved at once, in the name of the policy, and the Job goes on. */
  lemma ReaderIsApproved(h: Hub, unavailable: set<ToolName>, call: Call, now: Time)
    requires Arrives(h, unavailable, call, now) && call.name in READ_ONLY
    ensures var r := Evaluate(h, unavailable, call, now);
      && |r.committed| == 1 && r.committed[0].jobs == h.jobs
      && r.result.Ok? && r.result.value.status == Approved && r.result.value.authorization.Some?
      && call.name in RISKS[R0] && r.result.value.risk == R0
      && StoresCall(h, r.committed[0], call, Approved, r.result.value.authorization)
      && IsAuthorityFor(r.result.value.authorization.value, call, "policy", h.jobs.jobs[call.jobId].spec.value, now)
  {
    RiskIsListed(call.name);
    ReasonIff(call);
  }

  /** Any other call is stored before its Job is held, and held for the Owner unless the Job cannot wait. */
  lemma OtherCallIsHeld(h: Hub, unavailable: set<ToolName>, call: Call, now: Time)
    requires Arrives(h, unavailable, call, now) && call.name !in READ_ONLY
    ensures var (r, status) := (Evaluate(h, unavailable, call, now), h.jobs.jobs[call.jobId].status);
      && r.committed != [] && r.committed[0].jobs == h.jobs && StoresCall(h, r.committed[0], call, Pending, None)
      && (r.result.Ok? <==> status in {WaitApproval, Running, Dispatched})
      && (r.result.Err? ==> |r.committed| == 1)
      && (r.result.Ok? ==>
            && |r.committed| == 2 && r.committed[1].calls == r.committed[0].calls
            && r.committed[1].jobs == SetStatus(h.jobs, call.jobId, WaitApproval)
            && r.result.value.status == Pending && r.result.value.authorization.None?
            && r.result.value.risk in RISKS && call.name in RISKS[r.result.value.risk])
  {
    RiskIsListed(call.name);
    ReasonIff(call);
    assert h.jobs.jobs[call.jobId].status == WaitApproval ==> SetStatus(h.jobs, call.jobId, WaitApproval).jobs == h.jobs.jobs;
  }

  /** The answer to a new call is APPROVED exactly when its tool only reads. */
  lemma ApprovedAtOnceIff(h: Hub, unavailable: set<ToolName>, call: Call, now: Time)
    requires Arrives(h, unavailable, call, now)
    ensures var r := Evaluate(h, unavailable, call, now);
      && (r.result.Ok? && r.result.value.status == Approved <==> call.name in READ_ONLY)
      && (call.name !in READ_ONLY ==>
            && call.callId in After(h, r.committed).calls && After(h, r.committed).calls[call.callId].status == Pending
            && (r.result.Ok? ==> After(h, r.committed).jobs.jobs[call.jobId].status == WaitApproval))
  {
    if call.name in READ_ONLY { ReaderIsApproved(h, unavailable, call, now); } else { OtherCallIsHeld(h, unavailable, call, now); }
  }

  /** A new call of a tool the Runner does not have is stored as denied, and the Job goes on. */
  lemma UnavailableIsDenied(h: Hub, unavailable: set<ToolName>, call: Call, now: Time)
    requires Arrives(h, unavailable - {call.name}, call, now) && call.name in unavailable
    ensures var r := Evaluate(h, unavailable, call, now);
      && |r.committed| == 1 && r.committed[0].jobs == h.jobs && StoresCall(h, r.committed[0], call, Denied, None)
      && r.result.Ok? && r.result.value.status == Denied && r.result.value.authorization.None?
  {
    RiskIsListed(call.name);
    ReasonIff(call);
  }

  /** A new call is stored exactly when its reason is valid, it is recent, and the Runner's live agent Job is under its lease; at
      the very end of the lease a call that only reads is not. */
  lemma StoredIff(h: Hub, unavailable: set<ToolName>, call: Call, now: Time)
    requires call.callId !in h.calls
    ensures var r := Evaluate(h, unavailable, call, now);
      && (call.callId in After(h, r.committed).calls <==>
            && GivesReason(call) && Recent(call, now) && AgentHolds(h.jobs, call)
            && now <= h.jobs.jobs[call.jobId].spec.value.leaseExpiresAt
            && (now == h.jobs.jobs[call.jobId].spec.value.leaseExpiresAt ==> call.name in unavailable || call.name !in READ_ONLY))
      && (call.callId !in After(h, r.committed).calls ==> r.committed == [] && r.result.Err?)
  {
    RiskIsListed(call.name);
    ReasonIff(call);
  }

  /** A call that is sent again is answered by what is stored, and never changes it; other content under its id is refused. */
  lemma RepeatedCallIsAnswered(h: Hub, unavailable: set<ToolName>, call: Call, now: Time)
    requires call.callId in h.calls
    ensures var (r, row) := (Evaluate(h, unavailable, call, now), h.calls[call.callId]);
      && After(h, r.committed).calls == h.calls
      && (r.result.Ok? ==>
            && row.digest.call == call && r.result.value.risk == row.risk
            && AgentHolds(h.jobs, call) && now <= h.jobs.jobs[call.jobId].spec.value.leaseExpiresAt)
      && (r.result.Ok? && row.status != Approved ==> r.result.value == Decision(row.status, row.risk, None))
      && (r.result.Ok? && r.result.value.status == Approved ==>
            && row.status == Approved && row.authorization.Some? && r.result.value.authorization == row.authorization
            && now < row.authorization.value.expiresAt)
      && (r.result.Ok? && row.status == Approved && row.authorization.Some? && now < row.authorization.value.expiresAt ==>
            r.result.value.status == Approved)
      && (r.result.Ok? && r.result.value.status == Pending ==> After(h, r.committed).jobs.jobs[call.jobId].status == WaitApproval)
      && (r.result.Ok? && r.result.value.status != Pending ==> r.committed == [])
  {
  }

  /** In every reachable state, a stored call that no longer waits is answered again for as long as its lease is active. */
  lemma DecidedCallIsAnswered(clock: Time, steps: seq<Step>, unavailable: set<ToolName>, callId: Id, now: Time)
    requires var w := Reach(clock, steps); callId in w.hub.calls && w.hub.calls[callId].status != Pending
    requires var w := Reach(clock, steps); var call := w.hub.calls[callId].call;
      AgentHolds(w.hub.jobs, call) && now <= w.hub.jobs.jobs[call.jobId].spec.value.leaseExpiresAt
    ensures var w := Reach(clock, steps); Evaluate(w.hub, unavailable, w.hub.calls[callId].call, now).result.Ok?
  {
    ReachIsGood(clock, steps);
    assert RowOk(Reach(clock, steps), callId, Reach(clock, steps).hub.calls[callId]);
  }

  // ---- The Owner's decision ----

  /** What becomes of the Owner's approval of a held call. Before the lease ends it gives the Owner's authority for this very call
      and lets the Job go on; after that it denies the call, and the Job goes on under a new lease. */
  ghost predicate OwnerIsAnswered(h: Hub, callId: Id, ownerId: string, now: Time, r: Run<Decision>)
    requires callId in h.calls
  {
    var (call, h') := (h.calls[callId].call, After(h, r.committed));
    && (r.result.Ok? <==> AgentHolds(h.jobs, call) && h.jobs.jobs[call.jobId].status == WaitApproval)
    && (r.result.Err? ==> r.committed == [])
    && (r.result.Ok? ==>
          && |r.committed| == 2 && r.committed[0].jobs == h.jobs && r.committed[1].calls == r.committed[0].calls
          && StoresCall(h, h', call, r.result.value.status, r.result.value.authorization)
          && if now < h.jobs.jobs[call.jobId].spec.value.leaseExpiresAt
             then
               && r.result.value.status == Approved && r.result.value.authorization.Some?
               && IsAuthorityFor(r.result.value.authorization.value, call, ownerId, h.jobs.jobs[call.jobId].spec.value, now)
               && h'.jobs == SetStatus(h.jobs, call.jobId, Dispatched)
             else
               && r.result.value.status == Denied && r.result.value.authorization.None?
               && call.jobId in h'.jobs.jobs && h'.jobs.jobs[call.jobId].status == Dispatched
               && h'.jobs.jobs[call.jobId].spec == Some(Spec(h.jobs.minted, now + 300_000, now + 3_600_000)))
  }

  lemma HeldCallIsAnswered(h: Hub, callId: Id, ownerId: string, now: Time)
    requires callId in h.calls && h.calls[callId] == NewRow(h.calls[callId].call, Pending, None)
    requires var call := h.calls[callId].call;
      call.callId == callId && ValidReason(call.reason) && (call.jobId in h.jobs.jobs ==> h.jobs.jobs[call.jobId].runnerId == call.runnerId)
    ensures OwnerIsAnswered(h, callId, ownerId, now, ApproveCall(h, callId, ownerId, now))
  {
    RiskIsListed(h.calls[callId].call.name);
  }

  /** In every reachable state the Owner's approval of a held call succeeds exactly when the call's Job waits under its lease, with
      the authority or the denial that this gives. */
  lemma OwnerDecides(clock: Time, steps: seq<Step>, callId: Id, ownerId: string, now: Time)
    requires var w := Reach(clock, steps); callId in w.hub.calls && w.hub.calls[callId].status == Pending
    ensures var h := Reach(clock, steps).hub; OwnerIsAnswered(h, callId, ownerId, now, ApproveCall(h, callId, ownerId, now))
  {
    ReachIsGood(clock, steps);
    var w := Reach(clock, steps);
    assert RowOk(w, callId, w.hub.calls[callId]);
    HeldCallIsAnswered(w.hub, callId, ownerId, now);
  }

  /** In every reachable state, at any time, a decision is read as APPROVED exactly when the call's stored authority has not run
      out, and gives that authority; a held call reads as held, any other as denied. */
  lemma DecisionReadsIff(clock: Time, steps: seq<Step>, callId: Id, now: Time)
    requires callId in Reach(clock, steps).hub.calls
    ensures var (row, d) := (Reach(clock, steps).hub.calls[callId], DecisionOf(Reach(clock, steps).hub.calls[callId], now));
      && (d.status == Approved <==> row.authorization.Some? && now < row.authorization.value.expiresAt)
      && (d.status == Pending <==> row.status == Pending)
      && d.authorization == (if d.status == Approved then row.authorization else None) && d.risk == row.risk
  {
    ReachIsGood(clock, steps);
    assert RowOk(Reach(clock, steps), callId, Reach(clock, steps).hub.calls[callId]);
  }

  /** A call that is not held is not decided again. */
  lemma DecidedOnce(h: Hub, callId: Id, ownerId: string, now: Time)
    requires callId in h.calls ==> h.calls[callId].status != Pending
    ensures ApproveCall(h, callId, ownerId, now).result.Err? && ApproveCall(h, callId, ownerId, now).committed == []
  {
  }
}
