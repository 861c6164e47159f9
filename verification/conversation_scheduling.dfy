/** The two callbacks that turn a conversation's proposal into a Job: one for any Job, one for a self-improvement. */
module ConversationScheduling {
  import opened Wrappers
  import Jobs
  import Hub = HubRuns
  import opened Conversation
  import opened ImprovementJobs

  type Time = Jobs.Time

  const MAX_PROMPT_LENGTH: nat := 32_768

  /** Whether sandboxed Jobs of a conversation are approved by policy, and the workspace that holds the Hub's own source. */
  datatype Config = Config(autoApproval: bool, workspaceId: string)

  /** What the callbacks write. `appended` lists the Jobs of the job.policy.approved events in the event log. */
  datatype Store = Store(hub: Hub.World, bindings: Bindings, appended: seq<Id>)

  /** The Runner that the scheduler selects, if any; whether the patch registry knows the derived improvement id; the clock. */
  datatype Offer = Offer(runner: Option<Id>, patchExists: bool, createdAt: Time, now: Time)

  /** The stores after each commit, in order, and what the callback reports. */
  datatype Outcome = Outcome(stores: seq<Store>, result: Scheduled)

  function RequestOf(turnId: Id, p: Proposal): Jobs.Request {
    match p
    case JobProposal(workspaceId, tool, operation, prompt) => Jobs.Request(turnId, workspaceId, tool, operation, prompt, [])
    case ImprovementProposal(workspaceId, sandbox, _, prompt) => Jobs.Request(turnId, workspaceId, sandbox, "develop", prompt, [])
  }

  datatype Resolved = NewKey | DuplicateOf(jobId: Id) | OtherRequest

  /** resolveIdempotency */
  function Resolve(t: Jobs.Table, request: Jobs.Request): Resolved {
    if request.idempotencyKey !in t.byKey then NewKey
    else
      var jobId := t.byKey[request.idempotencyKey];
      if jobId in t.jobs && t.jobs[jobId].request == request then DuplicateOf(jobId) else OtherRequest
  }

  function CreateStep(request: Jobs.Request, runnerId: Id, offer: Offer): Hub.Step {
    Hub.Step(Hub.CreateJob(runnerId, request, offer.createdAt), offer.now, 1)
  }

  function ApproveStep(jobId: Id, now: Time): Hub.Step {
    Hub.Step(Hub.ApproveJob(jobId), now, 1)
  }

  function AfterHub(s: Store, step: Hub.Step): Store {
    s.(hub := Hub.Next(s.hub, step))
  }

  predicate Creatable(request: Jobs.Request, offer: Offer) {
    offer.runner.Some? && |request.prompt| <= MAX_PROMPT_LENGTH
  }

  // ---- Any Job ----

  /** scheduleConversationProposal, up to the approval by policy. */
  function ScheduleJob(s: Store, request: Jobs.Request, offer: Offer): Outcome {
    match Resolve(s.hub.hub.jobs, request)
    case OtherRequest => Outcome([], Rejected("JOB_IDEMPOTENCY_CONFLICT"))
    case DuplicateOf(jobId) => Outcome([], Created(jobId))
    case NewKey =>
      if offer.runner.None? then Outcome([], Rejected("NO_COMPATIBLE_RUNNER"))
      else if !Creatable(request, offer) then Outcome([], Rejected("JOB_PROPOSAL_REJECTED"))
      else Outcome([AfterHub(s, CreateStep(request, offer.runner.value, offer))], Created(s.hub.hub.jobs.minted))
  }

  predicate NeedsPolicy(config: Config, job: Jobs.Job) {
    config.autoApproval && job.risk == Jobs.R1 && job.request.tool != Jobs.Agent && job.status == Jobs.WaitApproval
  }

  /** approveIsolatedConversationJob after it has waited for the event log: the event is appended, then the Job is approved,
      which throws when the Job no longer waits. */
  function ApproveByPolicy(s: Store, jobId: Id, now: Time): Outcome {
    var logged := s.(appended := s.appended + [jobId]);
    if Jobs.Approve(s.hub.hub.jobs, jobId, now).Err? then Outcome([logged], Rejected("JOB_PROPOSAL_REJECTED"))
    else Outcome([logged, AfterHub(logged, ApproveStep(jobId, now))], Created(jobId))
  }

  // ---- A self-improvement ----

  const REFUSED: Scheduled := Rejected("SELF_IMPROVEMENT_JOB_REJECTED")

  /** Binds the Job to its metadata, and approves it if it waits for that. */
  function BindAndApprove(s: Store, jobId: Id, b: Binding, now: Time): Outcome
    requires jobId in s.hub.hub.jobs.jobs
  {
    var job := s.hub.hub.jobs.jobs[jobId];
    match Register(s.bindings, jobId, job, b)
    case Err(_) => Outcome([], REFUSED)
    case Ok(bindings) =>
      var bound := s.(bindings := bindings);
      if job.status != Jobs.WaitApproval then Outcome([bound], Created(jobId))
      else if Jobs.Approve(s.hub.hub.jobs, jobId, now).Err? then Outcome([bound], REFUSED)
      else Outcome([bound, AfterHub(bound, ApproveStep(jobId, now))], Created(jobId))
  }

  /** scheduleConversationSelfImprovement, for a proposal in the Hub's own workspace. */
  function ScheduleImprovement(s: Store, request: Jobs.Request, b: Binding, offer: Offer): Outcome {
    match Resolve(s.hub.hub.jobs, request)
    case OtherRequest => Outcome([], Rejected("JOB_IDEMPOTENCY_CONFLICT"))
    case DuplicateOf(jobId) => if jobId in s.hub.hub.jobs.jobs then BindAndApprove(s, jobId, b, offer.now) else Outcome([], REFUSED)
    case NewKey =>
      if offer.patchExists then Outcome([], Rejected("SELF_IMPROVEMENT_ID_CONFLICT"))
      else if offer.runner.None? then Outcome([], Rejected("NO_COMPATIBLE_RUNNER"))
      else if !Creatable(request, offer) then Outcome([], REFUSED)
      else
        var (created, jobId) := (AfterHub(s, CreateStep(request, offer.runner.value, offer)), s.hub.hub.jobs.minted);
        if jobId !in created.hub.hub.jobs.jobs then Outcome([created], REFUSED)
        else
          var rest := BindAndApprove(created, jobId, b, offer.now);
          Outcome([created] + rest.stores, rest.result)
  }

  // ---- A callback that runs, or fails on the way ----

  function Last(s: Store, stores: seq<Store>): Store {
    if stores == [] then s else stores[|stores| - 1]
  }

  /** `fails`: an exception of the disk after so many commits, which the callback reports under this code. A process that dies
      there leaves the same store. */
  function Ends(s: Store, o: Outcome, fails: Option<nat>, code: string): (Store, Scheduled) {
    match fails
    case None => (Last(s, o.stores), o.result)
    case Some(n) => (Last(s, if n < |o.stores| then o.stores[..n] else o.stores), Rejected(code))
  }

  function BindingOf(turnId: Id, p: Proposal): Binding
    requires p.ImprovementProposal?
  {
    Binding(OfTurn(turnId), p.context)
  }

  function Schedule(s: Store, config: Config, turnId: Id, p: Proposal, offer: Offer, fails: Option<nat>): (Store, Scheduled) {
    match p
    case JobProposal(_, _, _, _) => Ends(s, ScheduleJob(s, RequestOf(turnId, p), offer), fails, "JOB_PROPOSAL_REJECTED")
    case ImprovementProposal(workspaceId, _, _, _) =>
      if workspaceId != config.workspaceId then (s, Rejected("SELF_IMPROVEMENT_WORKSPACE_REJECTED"))
      else Ends(s, ScheduleImprovement(s, RequestOf(turnId, p), BindingOf(turnId, p), offer), fails, "SELF_IMPROVEMENT_JOB_REJECTED")
  }

  function FinishPolicy(s: Store, jobId: Id, now: Time, fails: Option<nat>): (Store, Scheduled) {
    Ends(s, ApproveByPolicy(s, jobId, now), fails, "JOB_PROPOSAL_REJECTED")
  }

  // ---- What the callbacks keep ----

  ghost predicate HubGood(hub: Hub.World, hub': Hub.World) {
    Hub.Inv(hub') && Hub.TableExtends(hub.hub.jobs, hub'.hub.jobs)
  }

  lemma HubNextIsGood(hub: Hub.World, step: Hub.Step)
    requires Hub.Inv(hub)
    ensures HubGood(hub, Hub.Next(hub, step))
  {
    Hub.NextIsGood(hub, step);
  }

  lemma SameHubIsGood(hub: Hub.World)
    requires Hub.Inv(hub)
    ensures HubGood(hub, hub)
  {
    Hub.SameIsGood(hub);
  }

  /** Each of the stores has one of these two Hubs. */
  predicate HubsAre(stores: seq<Store>, a: Hub.World, b: Hub.World) {
    forall i | 0 <= i < |stores| :: stores[i].hub == a || stores[i].hub == b
  }

  lemma BindAndApproveHubs(s: Store, jobId: Id, b: Binding, now: Time)
    requires jobId in s.hub.hub.jobs.jobs
    ensures HubsAre(BindAndApprove(s, jobId, b, now).stores, s.hub, Hub.Next(s.hub, ApproveStep(jobId, now)))
  {
  }

  /** Each of the stores goes on from the first one. */
  ghost predicate EachGood(s: Store, stores: seq<Store>) {
    forall i | 0 <= i < |stores| :: HubGood(s.hub, stores[i].hub)
  }

  lemma TwoGood(s: Store, stores: seq<Store>, a: Hub.World, b: Hub.World)
    requires HubsAre(stores, a, b) && HubGood(s.hub, a) && HubGood(s.hub, b)
    ensures EachGood(s, stores)
  {
  }

  lemma HubGoodTrans(a: Hub.World, b: Hub.World, c: Hub.World)
    requires HubGood(a, b) && HubGood(b, c)
    ensures HubGood(a, c)
  {
    forall j <- a.hub.jobs.jobs ensures j in c.hub.jobs.jobs && Hub.JobExtends(a.hub.jobs, a.hub.jobs.jobs[j], c.hub.jobs.jobs[j]) {
      assert Hub.JobExtends(a.hub.jobs, a.hub.jobs.jobs[j], b.hub.jobs.jobs[j]);
      assert Hub.JobExtends(b.hub.jobs, b.hub.jobs.jobs[j], c.hub.jobs.jobs[j]);
    }
  }

  lemma BindAndApproveIsGood(s: Store, jobId: Id, b: Binding, now: Time)
    requires Hub.Inv(s.hub) && jobId in s.hub.hub.jobs.jobs
    ensures EachGood(s, BindAndApprove(s, jobId, b, now).stores)
  {
    var approved := Hub.Next(s.hub, ApproveStep(jobId, now));
    BindAndApproveHubs(s, jobId, b, now);
    HubNextIsGood(s.hub, ApproveStep(jobId, now));
    SameHubIsGood(s.hub);
    TwoGood(s, BindAndApprove(s, jobId, b, now).stores, s.hub, approved);
  }

  lemma NewImprovementHubs(s: Store, request: Jobs.Request, b: Binding, offer: Offer)
    requires Resolve(s.hub.hub.jobs, request).NewKey? && Creatable(request, offer)
    ensures var created := Hub.Next(s.hub, CreateStep(request, offer.runner.value, offer));
      HubsAre(ScheduleImprovement(s, request, b, offer).stores, created,
              Hub.Next(created, ApproveStep(s.hub.hub.jobs.minted, offer.now)))
  {
    var (created, jobId) := (AfterHub(s, CreateStep(request, offer.runner.value, offer)), s.hub.hub.jobs.minted);
    if jobId in created.hub.hub.jobs.jobs {
      BindAndApproveHubs(created, jobId, b, offer.now);
    }
  }

  lemma NewImprovementIsGood(s: Store, request: Jobs.Request, b: Binding, offer: Offer)
    requires Hub.Inv(s.hub) && Resolve(s.hub.hub.jobs, request).NewKey? && Creatable(request, offer)
    ensures EachGood(s, ScheduleImprovement(s, request, b, offer).stores)
  {
    var step := CreateStep(request, offer.runner.value, offer);
    var created := Hub.Next(s.hub, step);
    var approved := Hub.Next(created, ApproveStep(s.hub.hub.jobs.minted, offer.now));
    HubNextIsGood(s.hub, step);
    HubNextIsGood(created, ApproveStep(s.hub.hub.jobs.minted, offer.now));
    HubGoodTrans(s.hub, created, approved);
    NewImprovementHubs(s, request, b, offer);
    TwoGood(s, ScheduleImprovement(s, request, b, offer).stores, created, approved);
  }

  lemma ScheduleImprovementIsGood(s: Store, request: Jobs.Request, b: Binding, offer: Offer)
    requires Hub.Inv(s.hub)
    ensures EachGood(s, ScheduleImprovement(s, request, b, offer).stores)
  {
    match Resolve(s.hub.hub.jobs, request)
    case DuplicateOf(jobId) => if jobId in s.hub.hub.jobs.jobs { BindAndApproveIsGood(s, jobId, b, offer.now); }
    case NewKey => if Creatable(request, offer) { NewImprovementIsGood(s, request, b, offer); }
    case OtherRequest =>
  }

  lemma ScheduleJobIsGood(s: Store, request: Jobs.Request, offer: Offer)
    requires Hub.Inv(s.hub)
    ensures EachGood(s, ScheduleJob(s, request, offer).stores)
  {
    if offer.runner.Some? { HubNextIsGood(s.hub, CreateStep(request, offer.runner.value, offer)); }
  }

  lemma EndsIsGood(s: Store, o: Outcome, fails: Option<nat>, code: string)
    requires HubGood(s.hub, s.hub) && EachGood(s, o.stores)
    ensures HubGood(s.hub, Ends(s, o, fails, code).0.hub)
  {
  }

  lemma ScheduleIsGood(s: Store, config: Config, turnId: Id, p: Proposal, offer: Offer, fails: Option<nat>)
    requires Hub.Inv(s.hub)
    ensures HubGood(s.hub, Schedule(s, config, turnId, p, offer, fails).0.hub)
  {
    var request := RequestOf(turnId, p);
    SameHubIsGood(s.hub);
    match p
    case JobProposal(_, _, _, _) =>
      ScheduleJobIsGood(s, request, offer);
      EndsIsGood(s, ScheduleJob(s, request, offer), fails, "JOB_PROPOSAL_REJECTED");
    case ImprovementProposal(_, _, _, _) =>
      ScheduleImprovementIsGood(s, request, BindingOf(turnId, p), offer);
      EndsIsGood(s, ScheduleImprovement(s, request, BindingOf(turnId, p), offer), fails, "SELF_IMPROVEMENT_JOB_REJECTED");
  }

  lemma ApproveByPolicyHubs(s: Store, jobId: Id, now: Time)
    ensures HubsAre(ApproveByPolicy(s, jobId, now).stores, s.hub, Hub.Next(s.hub, ApproveStep(jobId, now)))
  {
  }

  lemma FinishPolicyIsGood(s: Store, jobId: Id, now: Time, fails: Option<nat>)
    requires Hub.Inv(s.hub)
    ensures HubGood(s.hub, FinishPolicy(s, jobId, now, fails).0.hub)
  {
    HubNextIsGood(s.hub, ApproveStep(jobId, now));
    SameHubIsGood(s.hub);
    ApproveByPolicyHubs(s, jobId, now);
    TwoGood(s, ApproveByPolicy(s, jobId, now).stores, s.hub, Hub.Next(s.hub, ApproveStep(jobId, now)));
    EndsIsGood(s, ApproveByPolicy(s, jobId, now), fails, "JOB_PROPOSAL_REJECTED");
  }

  // ---- What the callbacks report ----

  lemma NextIsCommit(hub: Hub.World, step: Hub.Step, t: Jobs.Table)
    requires hub.clock <= step.now && step.commits == 1 && Hub.Commits(hub.hub, step.op, step.now) == [hub.hub.(jobs := t)]
    ensures Hub.Next(hub, step).hub.jobs == t && Hub.Next(hub, step).clock == step.now
  {
    var commits := Hub.Commits(hub.hub, step.op, step.now);
    assert commits[..1] == [commits[0]] && [commits[0]][1..] == [];
    assert Hub.RecordAll(Hub.Noted(hub, step.op, step.now), [commits[0]]) == Hub.Record(Hub.Noted(hub, step.op, step.now), commits[0]);
  }

  lemma CreatedAs(hub: Hub.World, request: Jobs.Request, runnerId: Id, offer: Offer)
    requires hub.clock <= offer.now && request.idempotencyKey !in hub.hub.jobs.byKey
    ensures var hub' := Hub.Next(hub, CreateStep(request, runnerId, offer));
      hub'.hub.jobs == Jobs.Create(hub.hub.jobs, runnerId, request, offer.createdAt, offer.now).value.0 && hub'.clock == offer.now
  {
    NextIsCommit(hub, CreateStep(request, runnerId, offer),
      Jobs.Create(hub.hub.jobs, runnerId, request, offer.createdAt, offer.now).value.0);
  }

  lemma ApprovedAs(hub: Hub.World, jobId: Id, now: Time)
    requires hub.clock <= now && Jobs.Approve(hub.hub.jobs, jobId, now).Ok?
    ensures Hub.Next(hub, ApproveStep(jobId, now)).hub.jobs == Jobs.Approve(hub.hub.jobs, jobId, now).value
  {
    NextIsCommit(hub, ApproveStep(jobId, now), Jobs.Approve(hub.hub.jobs, jobId, now).value);
  }

  predicate ReportsTheJob(t: Jobs.Table, request: Jobs.Request, result: Scheduled) {
    result.Created? ==>
      && result.jobId in t.jobs && t.jobs[result.jobId].request == request
      && request.idempotencyKey in t.byKey && t.byKey[request.idempotencyKey] == result.jobId
  }

  /** The Job of this key was created for this request. */
  predicate IsTheJob(t: Jobs.Table, request: Jobs.Request, jobId: Id) {
    ReportsTheJob(t, request, Created(jobId))
  }

  lemma ApprovalKeepsTheJob(hub: Hub.World, request: Jobs.Request, jobId: Id, now: Time)
    requires hub.clock <= now && IsTheJob(hub.hub.jobs, request, jobId) && Jobs.Approve(hub.hub.jobs, jobId, now).Ok?
    ensures IsTheJob(Hub.Next(hub, ApproveStep(jobId, now)).hub.jobs, request, jobId)
    ensures Hub.Next(hub, ApproveStep(jobId, now)).hub.jobs.jobs.Keys == hub.hub.jobs.jobs.Keys
  {
    ApprovedAs(hub, jobId, now);
  }

  lemma BindAndApproveIsSound(s: Store, request: Jobs.Request, jobId: Id, b: Binding, now: Time)
    requires s.hub.clock <= now && IsTheJob(s.hub.hub.jobs, request, jobId)
    ensures var o := BindAndApprove(s, jobId, b, now); ReportsTheJob(Last(s, o.stores).hub.hub.jobs, request, o.result)
  {
    if Jobs.Approve(s.hub.hub.jobs, jobId, now).Ok? { ApprovalKeepsTheJob(s.hub, request, jobId, now); }
  }

  lemma NewJobIsTheJob(s: Store, request: Jobs.Request, offer: Offer)
    requires s.hub.clock <= offer.now && Resolve(s.hub.hub.jobs, request).NewKey? && Creatable(request, offer)
    ensures var created := AfterHub(s, CreateStep(request, offer.runner.value, offer));
      && created.hub.clock == offer.now && IsTheJob(created.hub.hub.jobs, request, s.hub.hub.jobs.minted)
      && (request.tool != Jobs.Agent ==>
            var job := created.hub.hub.jobs.jobs[s.hub.hub.jobs.minted]; job.risk == Jobs.R1 && job.status == Jobs.WaitApproval)
  {
    CreatedAs(s.hub, request, offer.runner.value, offer);
  }

  lemma ScheduleImprovementIsSound(s: Store, request: Jobs.Request, b: Binding, offer: Offer)
    requires s.hub.clock <= offer.now
    ensures var o := ScheduleImprovement(s, request, b, offer); ReportsTheJob(Last(s, o.stores).hub.hub.jobs, request, o.result)
  {
    match Resolve(s.hub.hub.jobs, request)
    case DuplicateOf(jobId) => BindAndApproveIsSound(s, request, jobId, b, offer.now);
    case NewKey =>
      if Creatable(request, offer) {
        NewJobIsTheJob(s, request, offer);
        BindAndApproveIsSound(AfterHub(s, CreateStep(request, offer.runner.value, offer)), request, s.hub.hub.jobs.minted, b, offer.now);
      }
    case OtherRequest =>
  }

  lemma ScheduleJobIsSound(s: Store, request: Jobs.Request, offer: Offer)
    requires s.hub.clock <= offer.now
    ensures var o := ScheduleJob(s, request, offer); ReportsTheJob(Last(s, o.stores).hub.hub.jobs, request, o.result)
  {
    if Resolve(s.hub.hub.jobs, request).NewKey? && Creatable(request, offer) { NewJobIsTheJob(s, request, offer); }
  }

  /** A callback that reports a Job reports the one Job of this key, for this very request. */
  lemma ScheduleIsSound(s: Store, config: Config, turnId: Id, p: Proposal, offer: Offer, fails: Option<nat>)
    requires s.hub.clock <= offer.now
    ensures var (s', result) := Schedule(s, config, turnId, p, offer, fails);
      ReportsTheJob(s'.hub.hub.jobs, RequestOf(turnId, p), result)
  {
    if p.JobProposal? {
      ScheduleJobIsSound(s, RequestOf(turnId, p), offer);
    } else {
      ScheduleImprovementIsSound(s, RequestOf(turnId, p), BindingOf(turnId, p), offer);
    }
  }

  // ---- A Job that exists ----

  /** Why a proposal whose Job exists is refused, if it is. */
  function RefusalOf(s: Store, config: Config, turnId: Id, p: Proposal, jobId: Id): Option<string>
    requires jobId in s.hub.hub.jobs.jobs
  {
    if p.JobProposal? then None
    else if p.workspaceId != config.workspaceId then Some("SELF_IMPROVEMENT_WORKSPACE_REJECTED")
    else if jobId in s.bindings then
      if s.bindings[jobId] == BindingOf(turnId, p) then None else Some("SELF_IMPROVEMENT_JOB_REJECTED")
    else if s.hub.hub.jobs.jobs[jobId].status == Jobs.WaitApproval && !Taken(s.bindings, OfTurn(turnId)) then None
    else Some("SELF_IMPROVEMENT_JOB_REJECTED")
  }

  lemma ImprovementJobIsR1(s: Store, request: Jobs.Request, jobId: Id)
    requires Hub.Inv(s.hub) && IsTheJob(s.hub.hub.jobs, request, jobId) && request.tool != Jobs.Agent
    ensures s.hub.hub.jobs.jobs[jobId].risk == Jobs.R1
  {
    assert Hub.JobOk(s.hub, jobId, s.hub.hub.jobs.jobs[jobId]);
  }

  lemma BindAndApproveReports(s: Store, request: Jobs.Request, jobId: Id, b: Binding, now: Time)
    requires s.hub.clock <= now && IsTheJob(s.hub.hub.jobs, request, jobId)
    requires request.tool != Jobs.Agent && request.operation == "develop" && s.hub.hub.jobs.jobs[jobId].risk == Jobs.R1
    ensures var (o, job) := (BindAndApprove(s, jobId, b, now), s.hub.hub.jobs.jobs[jobId]);
      var accepted := if jobId in s.bindings then s.bindings[jobId] == b
                      else job.status == Jobs.WaitApproval && !Taken(s.bindings, b.improvementId);
      && o.result == (if accepted then Created(jobId) else REFUSED)
      && (!accepted ==> o.stores == [])
      && (accepted ==> jobId in Last(s, o.stores).bindings && Last(s, o.stores).bindings[jobId] == b)
  {
  }

  lemma BindAndApproveAddsNoJob(s: Store, jobId: Id, b: Binding, now: Time, n: nat)
    requires s.hub.clock <= now && jobId in s.hub.hub.jobs.jobs && n <= |BindAndApprove(s, jobId, b, now).stores|
    ensures var s' := Last(s, BindAndApprove(s, jobId, b, now).stores[..n]);
      s'.hub.hub.jobs.jobs.Keys == s.hub.hub.jobs.jobs.Keys && s'.appended == s.appended
  {
    if Jobs.Approve(s.hub.hub.jobs, jobId, now).Ok? { ApprovedAs(s.hub, jobId, now); }
  }

  /** A proposal whose Job exists is reported as that Job or refused as RefusalOf says; a refusal changes nothing. */
  lemma ExistingJobIsReported(s: Store, config: Config, turnId: Id, p: Proposal, jobId: Id, offer: Offer)
    requires Hub.Inv(s.hub) && s.hub.clock <= offer.now && IsTheJob(s.hub.hub.jobs, RequestOf(turnId, p), jobId)
    ensures var (refusal, (s', result)) := (RefusalOf(s, config, turnId, p, jobId), Schedule(s, config, turnId, p, offer, None));
      && result == (if refusal.Some? then Rejected(refusal.value) else Created(jobId))
      && (refusal.Some? || p.JobProposal? ==> s' == s)
      && (refusal.None? && p.ImprovementProposal? ==> jobId in s'.bindings && s'.bindings[jobId] == BindingOf(turnId, p))
  {
    if p.ImprovementProposal? {
      ImprovementJobIsR1(s, RequestOf(turnId, p), jobId);
      BindAndApproveReports(s, RequestOf(turnId, p), jobId, BindingOf(turnId, p), offer.now);
    }
  }

  /** Whether it is refused, or fails on the way: no Job is created for it, and nothing is appended. */
  lemma ExistingJobStaysTheOnly(s: Store, config: Config, turnId: Id, p: Proposal, jobId: Id, offer: Offer, fails: Option<nat>)
    requires s.hub.clock <= offer.now && IsTheJob(s.hub.hub.jobs, RequestOf(turnId, p), jobId)
    ensures var s' := Schedule(s, config, turnId, p, offer, fails).0;
      s'.hub.hub.jobs.jobs.Keys == s.hub.hub.jobs.jobs.Keys && s'.appended == s.appended
  {
    if p.ImprovementProposal? {
      var stores := BindAndApprove(s, jobId, BindingOf(turnId, p), offer.now).stores;
      var n := if fails.Some? && fails.value < |stores| then fails.value else |stores|;
      assert stores[..|stores|] == stores;
      BindAndApproveAddsNoJob(s, jobId, BindingOf(turnId, p), offer.now, n);
    }
  }

  // ---- A new Job ----

  /** A proposal without a Job gets one exactly when nothing speaks against creating it. */
  predicate CreatesJob(config: Config, turnId: Id, p: Proposal, offer: Offer) {
    Creatable(RequestOf(turnId, p), offer) && (p.ImprovementProposal? ==> p.workspaceId == config.workspaceId && !offer.patchExists)
  }

  lemma ApprovalAddsNoJob(s: Store, jobId: Id, now: Time)
    ensures Hub.Next(s.hub, ApproveStep(jobId, now)).hub.jobs.byKey == s.hub.hub.jobs.byKey
  {
    var op := Hub.ApproveJob(jobId);
    var commits := Hub.Commits(s.hub.hub, op, now);
    if commits != [] && s.hub.clock <= now {
      NextIsCommit(s.hub, ApproveStep(jobId, now), Jobs.Approve(s.hub.hub.jobs, jobId, now).value);
    }
  }

  lemma NewImprovementIsReported(s: Store, request: Jobs.Request, b: Binding, offer: Offer)
    requires s.hub.clock <= offer.now && s.hub.hub.jobs.minted !in s.bindings
    requires Resolve(s.hub.hub.jobs, request).NewKey? && request.operation == "develop" && request.tool != Jobs.Agent
    ensures var (o, created) := (ScheduleImprovement(s, request, b, offer), Creatable(request, offer) && !offer.patchExists);
      && (request.idempotencyKey in Last(s, o.stores).hub.hub.jobs.byKey <==> created)
      && (o.result.Created? <==> created && !Taken(s.bindings, b.improvementId))
  {
    if Creatable(request, offer) {
      NewJobIsTheJob(s, request, offer);
      var (created, jobId) := (AfterHub(s, CreateStep(request, offer.runner.value, offer)), s.hub.hub.jobs.minted);
      BindAndApproveReports(created, request, jobId, b, offer.now);
      BindAndApproveHubs(created, jobId, b, offer.now);
      ApprovalAddsNoJob(created, jobId, offer.now);
    }
  }

  /** Without a Job of its key: the proposal is reported as created exactly when a Job is created and, for a self-improvement,
      no other Job is bound to its id. In that one case the error is recorded although the Job exists. */
  lemma NewJobIsReported(s: Store, config: Config, turnId: Id, p: Proposal, offer: Offer)
    requires s.hub.clock <= offer.now && s.hub.hub.jobs.minted !in s.bindings
    requires Resolve(s.hub.hub.jobs, RequestOf(turnId, p)).NewKey?
    ensures var (s', result) := Schedule(s, config, turnId, p, offer, None);
      && (turnId in s'.hub.hub.jobs.byKey <==> CreatesJob(config, turnId, p, offer))
      && (result.Created? <==> CreatesJob(config, turnId, p, offer) && (p.ImprovementProposal? ==> !Taken(s.bindings, OfTurn(turnId))))
  {
    if p.ImprovementProposal? {
      NewImprovementIsReported(s, RequestOf(turnId, p), BindingOf(turnId, p), offer);
    } else if Creatable(RequestOf(turnId, p), offer) {
      NewJobIsTheJob(s, RequestOf(turnId, p), offer);
    }
  }

  // ---- Approval by policy ----

  /** The approval by policy reports the Job exactly when it still waits; when it does not, only the event was appended. */
  lemma PolicyReportsIff(s: Store, jobId: Id, now: Time)
    requires Hub.Inv(s.hub) && s.hub.clock <= now && jobId in s.hub.hub.jobs.jobs && s.hub.hub.jobs.jobs[jobId].risk == Jobs.R1
    ensures var (s', result) := FinishPolicy(s, jobId, now, None);
      && s'.appended == s.appended + [jobId] && s'.bindings == s.bindings
      && s'.hub.hub.jobs.jobs.Keys == s.hub.hub.jobs.jobs.Keys
      && if s.hub.hub.jobs.jobs[jobId].status == Jobs.WaitApproval
         then result == Created(jobId) && s'.hub.hub.jobs.jobs[jobId].status == Jobs.Dispatched
         else result == Rejected("JOB_PROPOSAL_REJECTED") && s'.hub == s.hub
  {
    if Jobs.Approve(s.hub.hub.jobs, jobId, now).Ok? { ApprovedAs(s.hub, jobId, now); }
  }

  lemma FinishPolicyIsSound(s: Store, request: Jobs.Request, jobId: Id, now: Time, fails: Option<nat>)
    requires s.hub.clock <= now && IsTheJob(s.hub.hub.jobs, request, jobId)
    ensures var (s', result) := FinishPolicy(s, jobId, now, fails); ReportsTheJob(s'.hub.hub.jobs, request, result)
  {
    if Jobs.Approve(s.hub.hub.jobs, jobId, now).Ok? { ApprovalKeepsTheJob(s.hub, request, jobId, now); }
  }
}
