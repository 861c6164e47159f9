/** What each step of a conversation does to its turn, and what a Job that a turn names was created with. */
module ConversationLaws {
  import opened Wrappers
  import Jobs
  import Hub = HubRuns
  import opened Conversation
  import opened ImprovementJobs
  import opened ConversationScheduling
  import opened ConversationRuns
  import opened ConversationGuarantees

  // ---- The registry ----

  predicate OnlyTurnDiffers(r: Registry, r': Registry, turnId: Id) {
    && turnId in r'.turns && r'.turns == r.turns[turnId := r'.turns[turnId]]
  }

  /** A new message of a channel gets a new queued turn. One with a known id is a duplicate when it is the very same message, and
      a conflict otherwise; neither changes anything. */
  lemma AcceptedAs(r: Registry, m: Message)
    requires IndexOk(r)
    ensures var (r', accepted) := Accept(r, m);
      if exists id <- r.turns :: r.turns[id].message.channel == m.channel && r.turns[id].message.messageId == m.messageId
      then
        && r' == r
        && (accepted.Duplicate? ==> accepted.turnId in r.turns && r.turns[accepted.turnId].message == m)
        && (accepted.Conflict? ==> forall id <- r.turns :: r.turns[id].message != m)
        && !accepted.NewTurn?
      else
        && accepted.NewTurn? && accepted.turnId !in r.turns && OnlyTurnDiffers(r, r', accepted.turnId)
        && r'.turns[accepted.turnId] == Turn(m, Queued, None, None, None, None, None)
        && r'.byMessage == r.byMessage[(m.channel, m.messageId) := accepted.turnId]
  {
    if exists id <- r.turns :: r.turns[id].message.channel == m.channel && r.turns[id].message.messageId == m.messageId {
      var id :| id in r.turns && r.turns[id].message.channel == m.channel && r.turns[id].message.messageId == m.messageId;
      assert KeyOf(r.turns[id].message) == KeyOf(m);
    }
  }

  /** After a crash, exactly the turns that were being worked on have failed. */
  lemma RepairedAs(r: Registry, turnId: Id)
    requires turnId in r.turns
    ensures Repair(r).turns.Keys == r.turns.Keys && Repair(r).byMessage == r.byMessage
    ensures var (turn, turn') := (r.turns[turnId], Repair(r).turns[turnId]);
      if turn.status == Queued || turn.status == Thinking
      then turn' == turn.(status := Failed, errorCode := Some("AGENT_INTERRUPTED"))
      else turn' == turn
  {
  }

  predicate StatusOf(r: Registry, turnId: Id, statuses: set<Status>) {
    turnId in r.turns && r.turns[turnId].status in statuses
  }

  /** The update is made exactly in these states, and makes the turn this one. */
  predicate UpdatesTo(r: Registry, update: Result<Registry, Conversation.Failure>, turnId: Id, statuses: set<Status>, turn': Turn) {
    && (update.Ok? <==> StatusOf(r, turnId, statuses))
    && (update.Ok? ==> update.value == Registry(r.turns[turnId := turn'], r.byMessage, r.drawn))
  }

  /** A turn thinks once it was queued; only while it thinks is it replied or gets a proposal; it fails before either. */
  lemma TurnMovesOn(r: Registry, turnId: Id, reply: string, p: Proposal, code: string)
    requires turnId in r.turns
    ensures var turn := r.turns[turnId];
      && UpdatesTo(r, MarkThinking(r, turnId), turnId, {Queued}, turn.(status := Thinking, errorCode := None))
      && UpdatesTo(r, CompleteReply(r, turnId, reply), turnId, {Thinking},
           turn.(status := Replied, reply := Some(reply), errorCode := None))
      && UpdatesTo(r, RecordProposal(r, turnId, reply, p), turnId, {Thinking}, turn.(
           status := JobProposed, reply := Some(reply), proposal := Some(p), schedulingError := None, errorCode := None))
      && UpdatesTo(r, Conversation.Fail(r, turnId, code), turnId, {Queued, Thinking},
           turn.(status := Failed, errorCode := Some(code)))
  {
  }

  /** A scheduling result is recorded of a proposed turn only, as its Job or its error, never both. */
  lemma ResultIsRecorded(r: Registry, turnId: Id, jobId: Id, code: string)
    requires turnId in r.turns
    ensures var turn := r.turns[turnId];
      && UpdatesTo(r, RecordSchedulingResult(r, turnId, Created(jobId)), turnId, {JobProposed},
           turn.(jobId := Some(jobId), schedulingError := None))
      && UpdatesTo(r, RecordSchedulingResult(r, turnId, Rejected(code)), turnId, {JobProposed},
           turn.(jobId := None, schedulingError := Some(code)))
  {
  }

  // ---- The answer of the model ----

  /** What an answer makes of a turn that has called this many tools: a failure of the model or of its output fails it, a reply or
      a proposal is stored as given, and a tool is called up to four times. */
  function Answered(turn: Turn, answer: Answer, toolCalls: nat): Turn {
    match answer
    case AgentFails => turn.(status := Failed, errorCode := Some("AGENT_FAILED"))
    case OutputRejected => turn.(status := Failed, errorCode := Some("MODEL_OUTPUT_REJECTED"))
    case Replies(reply) => turn.(status := Replied, reply := Some(reply), errorCode := None)
    case Proposes(reply, p) =>
      turn.(status := JobProposed, reply := Some(reply), proposal := Some(p), schedulingError := None, errorCode := None)
    case CallsTool(available) =>
      if available && toolCalls < 4 then turn else turn.(status := Failed, errorCode := Some("MODEL_OUTPUT_REJECTED"))
  }

  /** The submission asks again after a tool, schedules a proposal, and else is over. */
  predicate GoesOnAs(w: World, c: string, answer: Answer, toolCalls: nat) {
    match answer
    case CallsTool(available) => if available && toolCalls < 4 then At(w, c, Asking(toolCalls + 1)) else c !in w.active
    case Proposes(_, _) => At(w, c, Scheduling)
    case _ => c !in w.active
  }

  lemma ReceivedIs(w: World, c: string, answer: Answer)
    requires c in w.active && w.active[c].at.Awaiting? && In(w.registry, w.active[c].turnId, Thinking)
    ensures var (turnId, k) := (w.active[c].turnId, w.active[c].at.toolCalls);
      && Receive(w, c, answer).registry == Put(w.registry, turnId, Answered(w.registry.turns[turnId], answer, k))
      && GoesOnAs(Receive(w, c, answer), c, answer, k)
  {
    var (turnId, ending) := (w.active[c].turnId, EndOf(answer, w.active[c].at.toolCalls));
    if ending.Some? { GoOnIs(w, c, ending.value); } else { assert Put(w.registry, turnId, w.registry.turns[turnId]) == w.registry; }
  }

  lemma ReceiveStepIs(w: World, c: string, answer: Answer)
    requires c in w.active && w.active[c].at.Awaiting?
    ensures Next(w, Receives(c, answer)) == Receive(w, c, answer)
  {
  }

  /** In every reachable state an answer decides how the turn and its submission go on. */
  lemma AnswerDecides(clock: Time, config: Config, steps: seq<Step>, c: string, answer: Answer)
    requires var w := Reach(clock, config, steps); c in w.active && w.active[c].at.Awaiting?
    ensures var w := Reach(clock, config, steps);
      var (w', turnId, k) := (Next(w, Receives(c, answer)), w.active[c].turnId, w.active[c].at.toolCalls);
      && turnId in w.registry.turns
      && w'.registry == w.registry.(turns := w.registry.turns[turnId := Answered(w.registry.turns[turnId], answer, k)])
      && GoesOnAs(w', c, answer, k)
  {
    ReachIsOk(clock, config, steps);
    AwaitingIsThinking(Reach(clock, config, steps), c);
    ReceiveStepIs(Reach(clock, config, steps), c, answer);
    ReceivedIs(Reach(clock, config, steps), c, answer);
  }

  // ---- The Job of a turn ----

  /** The Job does what was proposed. A self-improvement develops in its workspace. */
  predicate DoesWhatWasProposed(request: Jobs.Request, turnId: Id, p: Proposal) {
    && request.idempotencyKey == turnId && request.workspaceId == p.workspaceId && request.prompt == p.prompt && request.limits == []
    && match p
       case JobProposal(_, tool, operation, _) => request.tool == tool && request.operation == operation
       case ImprovementProposal(_, sandbox, _, _) => request.tool == sandbox && request.operation == "develop"
  }

  /** The one Job that a turn names was created for what the turn proposed. */
  lemma NamedJobDoesWhatWasProposed(clock: Time, config: Config, steps: seq<Step>, turnId: Id)
    requires var turns := Reach(clock, config, steps).registry.turns; turnId in turns && turns[turnId].jobId.Some?
    ensures var w := Reach(clock, config, steps);
      var (turn, jobs) := (w.registry.turns[turnId], w.hub.hub.jobs.jobs);
      turn.proposal.Some? && turn.jobId.value in jobs
      && DoesWhatWasProposed(jobs[turn.jobId.value].request, turnId, turn.proposal.value)
  {
    TurnNamesItsJob(clock, config, steps, turnId);
  }

  /** A self-improvement turn's Job is bound under the turn's own id, with the proposed metadata. */
  lemma BoundAsProposed(clock: Time, config: Config, steps: seq<Step>, turnId: Id)
    requires var turns := Reach(clock, config, steps).registry.turns;
      turnId in turns && turns[turnId].jobId.Some? && turns[turnId].proposal.Some? && turns[turnId].proposal.value.ImprovementProposal?
    ensures var w := Reach(clock, config, steps);
      var turn := w.registry.turns[turnId];
      && turn.jobId.value in w.bindings
      && w.bindings[turn.jobId.value].improvementId == OfTurn(turnId)
      && w.bindings[turn.jobId.value].context == turn.proposal.value.context
  {
    NamedJobIsBound(clock, config, steps, turnId);
  }

  // ---- Registration ----

  /** A Job is registered exactly when it is bound to the same already, or is unbound, an R1 develop Job of a sandboxed tool that
      still waits, for an improvement without a Job. */
  lemma RegisteredIff(bindings: Bindings, jobId: Id, job: Jobs.Job, b: Binding)
    ensures var r := Register(bindings, jobId, job, b);
      && (r.Ok? <==>
            if jobId in bindings then bindings[jobId] == b
            else
              && job.risk == Jobs.R1 && job.status == Jobs.WaitApproval
              && job.request.operation == "develop" && job.request.tool in {Jobs.Codex, Jobs.Pi, Jobs.Claude}
              && forall j <- bindings :: bindings[j].improvementId != b.improvementId)
      && (r.Ok? ==> r.value == bindings[jobId := b])
  {
  }

  // ---- Why a first scheduling is refused ----

  /** The first of these that holds is recorded as the error of a proposal that has no Job of its key yet. */
  function Obstacle(config: Config, p: Proposal, offer: Offer): Option<string> {
    if p.ImprovementProposal? && p.workspaceId != config.workspaceId then Some("SELF_IMPROVEMENT_WORKSPACE_REJECTED")
    else if p.ImprovementProposal? && offer.patchExists then Some("SELF_IMPROVEMENT_ID_CONFLICT")
    else if offer.runner == None then Some("NO_COMPATIBLE_RUNNER")
    else if 32_768 < |p.prompt| then Some(if p.JobProposal? then "JOB_PROPOSAL_REJECTED" else "SELF_IMPROVEMENT_JOB_REJECTED")
    else None
  }

  /** Then nothing is written, and otherwise the Job is created for the Runner that was selected. */
  lemma ObstacleIsReported(s: Store, config: Config, turnId: Id, p: Proposal, offer: Offer)
    requires s.hub.clock <= offer.now && turnId !in s.hub.hub.jobs.byKey
    ensures var (s', result) := Schedule(s, config, turnId, p, offer, None);
      if Obstacle(config, p, offer).Some? then result == Rejected(Obstacle(config, p, offer).value) && s' == s
      else
        && offer.runner.Some? && turnId in s'.hub.hub.jobs.byKey && s'.hub.hub.jobs.byKey[turnId] in s'.hub.hub.jobs.jobs
        && var job := s'.hub.hub.jobs.jobs[s'.hub.hub.jobs.byKey[turnId]];
           job.runnerId == offer.runner.value && DoesWhatWasProposed(job.request, turnId, p)
  {
    var request := RequestOf(turnId, p);
    if Obstacle(config, p, offer).None? {
      assert Creatable(request, offer) && Resolve(s.hub.hub.jobs, request).NewKey?;
      if p.JobProposal? { NewJobIsCreated(s, request, offer); } else { NewImprovementIsCreated(s, request, BindingOf(turnId, p), offer); }
    }
  }

  predicate JobOfKey(t: Jobs.Table, key: Id, runnerId: Id, request: Jobs.Request) {
    && key in t.byKey && t.byKey[key] in t.jobs && t.jobs[t.byKey[key]].runnerId == runnerId && t.jobs[t.byKey[key]].request == request
  }

  lemma CreatedJobIs(s: Store, request: Jobs.Request, offer: Offer)
    requires s.hub.clock <= offer.now && Resolve(s.hub.hub.jobs, request).NewKey? && Creatable(request, offer)
    ensures var created := AfterHub(s, CreateStep(request, offer.runner.value, offer));
      && created.hub.clock == offer.now && s.hub.hub.jobs.minted in created.hub.hub.jobs.jobs
      && JobOfKey(created.hub.hub.jobs, request.idempotencyKey, offer.runner.value, request)
  {
    CreatedAs(s.hub, request, offer.runner.value, offer);
  }

  lemma NewJobIsCreated(s: Store, request: Jobs.Request, offer: Offer)
    requires s.hub.clock <= offer.now && Resolve(s.hub.hub.jobs, request).NewKey? && Creatable(request, offer)
    ensures var o := ScheduleJob(s, request, offer);
      JobOfKey(Last(s, o.stores).hub.hub.jobs, request.idempotencyKey, offer.runner.value, request)
  {
    CreatedJobIs(s, request, offer);
  }

  lemma ApprovalKeepsJobOfKey(hub: Hub.World, jobId: Id, now: Time, key: Id, runnerId: Id, request: Jobs.Request)
    requires hub.clock <= now && JobOfKey(hub.hub.jobs, key, runnerId, request)
    ensures JobOfKey(Hub.Next(hub, ApproveStep(jobId, now)).hub.jobs, key, runnerId, request)
  {
    if Jobs.Approve(hub.hub.jobs, jobId, now).Ok? { ApprovedAs(hub, jobId, now); }
  }

  lemma NewImprovementIsCreated(s: Store, request: Jobs.Request, b: Binding, offer: Offer)
    requires s.hub.clock <= offer.now && Resolve(s.hub.hub.jobs, request).NewKey? && Creatable(request, offer) && !offer.patchExists
    ensures var o := ScheduleImprovement(s, request, b, offer);
      JobOfKey(Last(s, o.stores).hub.hub.jobs, request.idempotencyKey, offer.runner.value, request)
  {
    var (created, jobId) := (AfterHub(s, CreateStep(request, offer.runner.value, offer)), s.hub.hub.jobs.minted);
    CreatedJobIs(s, request, offer);
    BindAndApproveHubs(created, jobId, b, offer.now);
    ApprovalKeepsJobOfKey(created.hub, jobId, offer.now, request.idempotencyKey, offer.runner.value, request);
  }

  // ---- A self-improvement runs by itself ----

  /** The Job does not wait, and if it did before it has been approved just now. */
  predicate GoesAhead(t: Jobs.Table, t': Jobs.Table, jobId: Id, now: Time) {
    && jobId in t'.jobs && t'.jobs[jobId].status != Jobs.WaitApproval
    && (jobId in t.jobs && t.jobs[jobId].status == Jobs.WaitApproval ==>
          && t'.jobs[jobId].status == Jobs.Dispatched && t'.jobs[jobId].spec.Some?
          && t'.jobs[jobId].spec.value.leaseExpiresAt == now + 300_000 && t'.jobs[jobId].spec.value.leaseId == t.minted)
  }

  lemma BoundJobGoesAhead(s: Store, jobId: Id, b: Binding, now: Time)
    requires s.hub.clock <= now && jobId in s.hub.hub.jobs.jobs && BindAndApprove(s, jobId, b, now).result.Created?
    ensures GoesAhead(s.hub.hub.jobs, Last(s, BindAndApprove(s, jobId, b, now).stores).hub.hub.jobs, jobId, now)
  {
    if Jobs.Approve(s.hub.hub.jobs, jobId, now).Ok? { ApprovedAs(s.hub, jobId, now); }
  }

  /** A self-improvement Job that is reported does not wait for the Owner. */
  lemma ReportedImprovementGoesAhead(s: Store, config: Config, turnId: Id, p: Proposal, offer: Offer)
    requires Hub.Inv(s.hub)
    requires s.hub.clock <= offer.now && p.ImprovementProposal? && Schedule(s, config, turnId, p, offer, None).1.Created?
    ensures var (s', result) := Schedule(s, config, turnId, p, offer, None);
      GoesAhead(s.hub.hub.jobs, s'.hub.hub.jobs, result.jobId, offer.now)
  {
    var (request, b) := (RequestOf(turnId, p), BindingOf(turnId, p));
    assert Hub.JobsOk(s.hub);
    match Resolve(s.hub.hub.jobs, request)
    case DuplicateOf(jobId) => BoundJobGoesAhead(s, jobId, b, offer.now);
    case NewKey => NewImprovementGoesAhead(s, request, b, offer);
    case OtherRequest =>
  }

  lemma NewImprovementGoesAhead(s: Store, request: Jobs.Request, b: Binding, offer: Offer)
    requires s.hub.clock <= offer.now && Resolve(s.hub.hub.jobs, request).NewKey? && ScheduleImprovement(s, request, b, offer).result.Created?
    requires s.hub.hub.jobs.minted !in s.hub.hub.jobs.jobs
    ensures var o := ScheduleImprovement(s, request, b, offer);
      GoesAhead(s.hub.hub.jobs, Last(s, o.stores).hub.hub.jobs, o.result.jobId, offer.now)
  {
    var (created, jobId) := (AfterHub(s, CreateStep(request, offer.runner.value, offer)), s.hub.hub.jobs.minted);
    CreatedJobIs(s, request, offer);
    BoundJobGoesAhead(created, jobId, b, offer.now);
  }

  // ---- Approval by policy ----

  /** A submission comes to wait for the event log, and so to approve its Job by policy, exactly when that is configured and the
      Job its callback reports is an R1 Job of a sandboxed tool that waits. */
  lemma PolicyActsIff(clock: Time, config: Config, steps: seq<Step>, c: string, offer: Offer)
    requires var w := Reach(clock, config, steps); At(w, c, Scheduling) && w.hub.clock <= offer.now
    ensures var (w, w') := (Reach(clock, config, steps), Next(Reach(clock, config, steps), Schedules(c, offer, None)));
      var turnId := w.active[c].turnId;
      && turnId in w.registry.turns && w.registry.turns[turnId].proposal.Some? && c in w'.active
      && var p := w.registry.turns[turnId].proposal.value;
         var result := Schedule(StoreOf(w), w.config, turnId, p, offer, None).1;
         && (w'.active[c].at.Approving? <==>
               && w.config.autoApproval && p.JobProposal? && result.Created? && result.jobId in w'.hub.hub.jobs.jobs
               && var job := w'.hub.hub.jobs.jobs[result.jobId];
                  job.risk == Jobs.R1 && job.status == Jobs.WaitApproval && job.request.tool in {Jobs.Codex, Jobs.Pi, Jobs.Claude})
         && (!w'.active[c].at.Approving? ==> w'.active[c].at == Recording(result))
  {
    var w := Reach(clock, config, steps);
    ReachIsOk(clock, config, steps);
    assert HandlerOk(w, c, w.active[c]);
    ScheduleStepIs(w, Schedules(c, offer, None));
    ScheduleTurnIs(w, c, offer, None);
    var p := w.registry.turns[w.active[c].turnId].proposal.value;
    var (s, result) := Schedule(StoreOf(w), w.config, w.active[c].turnId, p, offer, None);
    PlaceAfterPolicy(s, w.config, p, result);
  }

  lemma PlaceAfterPolicy(s: Store, config: Config, p: Proposal, result: Scheduled)
    ensures var at := PlaceAfter(s, config, p, result);
      && (at.Approving? <==>
            && config.autoApproval && p.JobProposal? && result.Created? && result.jobId in s.hub.hub.jobs.jobs
            && var job := s.hub.hub.jobs.jobs[result.jobId];
               job.risk == Jobs.R1 && job.status == Jobs.WaitApproval && job.request.tool in {Jobs.Codex, Jobs.Pi, Jobs.Claude})
      && (!at.Approving? ==> at == Recording(result))
  {
  }
}
