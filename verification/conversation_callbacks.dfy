/** The two scheduling callbacks of the Hub, over its registries. */
module ConversationCallbacks {
  import opened Wrappers
  import Jobs
  import opened Conversation
  import opened ImprovementJobs
  import opened ConversationScheduling

  /** The registries hold what this store says. */
  predicate Holds(s: Store, t: Jobs.Table, bindings: Bindings, appended: seq<Id>) {
    s.hub.hub.jobs == t && s.bindings == bindings && s.appended == appended
  }

  class ConversationScheduler {
    const config: Config
    const jobs: Jobs.SqliteJobRegistry
    const improvements: SelfImprovementJobRegistry
    var appended: seq<Id>

    constructor (config: Config, jobs: Jobs.SqliteJobRegistry, improvements: SelfImprovementJobRegistry)
      ensures this.config == config && this.jobs == jobs && this.improvements == improvements && appended == []
    {
      this.config, this.jobs, this.improvements, appended := config, jobs, improvements, [];
    }

    ghost predicate Has(s: Store)
      reads this, jobs, improvements
    {
      Holds(s, jobs.State(), improvements.bindings, appended)
    }

    /** The callback for any Job, up to its wait for the event log. */
    method ScheduleProposal(ghost s: Store, turnId: Id, p: Proposal, offer: Offer) returns (result: Scheduled)
      requires Has(s) && p.JobProposal? && s.hub.clock <= offer.now
      modifies jobs
      ensures Has(Schedule(s, config, turnId, p, offer, None).0) && result == Schedule(s, config, turnId, p, offer, None).1
    {
      var request := RequestOf(turnId, p);
      var resolved := Resolve(jobs.State(), request);
      if resolved.OtherRequest? { return Rejected("JOB_IDEMPOTENCY_CONFLICT"); }
      if resolved.DuplicateOf? { return Created(resolved.jobId); }
      if offer.runner.None? { return Rejected("NO_COMPATIBLE_RUNNER"); }
      if !Creatable(request, offer) { return Rejected("JOB_PROPOSAL_REJECTED"); }
      CreatedAs(s.hub, request, offer.runner.value, offer);
      var created := jobs.CreateJob(offer.runner.value, request, offer.createdAt, offer.now);
      result := Created(created.value);
    }

    /** After that wait: the event is in the log, and the approval may throw. */
    method ApproveIsolatedJob(ghost s: Store, jobId: Id, now: Time) returns (result: Scheduled)
      requires Has(s) && s.hub.clock <= now
      modifies this, jobs
      ensures Has(FinishPolicy(s, jobId, now, None).0) && result == FinishPolicy(s, jobId, now, None).1
    {
      if Jobs.Approve(s.hub.hub.jobs, jobId, now).Ok? { ApprovedAs(s.hub, jobId, now); }
      appended := appended + [jobId];
      var approved := jobs.ApproveJob(jobId, now);
      result := if approved.Ok? then Created(jobId) else Rejected("JOB_PROPOSAL_REJECTED");
    }

    /** Registers the Job that exists, and approves it if it waits. */
    method BindJob(ghost s: Store, jobId: Id, b: Binding, now: Time) returns (result: Scheduled)
      requires Has(s) && s.hub.clock <= now && jobId in s.hub.hub.jobs.jobs
      modifies jobs, improvements
      ensures var o := BindAndApprove(s, jobId, b, now); Has(Last(s, o.stores)) && result == o.result
    {
      if Jobs.Approve(s.hub.hub.jobs, jobId, now).Ok? { ApprovedAs(s.hub, jobId, now); }
      var job := jobs.jobs[jobId];
      var registered := improvements.RegisterJob(jobId, job, b);
      if registered.Err? { return REFUSED; }
      if job.status != Jobs.WaitApproval { return Created(jobId); }
      var approved := jobs.ApproveJob(jobId, now);
      result := if approved.Ok? then Created(jobId) else REFUSED;
    }

    /** The callback for a self-improvement. */
    method ScheduleSelfImprovement(ghost s: Store, turnId: Id, p: Proposal, offer: Offer) returns (result: Scheduled)
      requires Has(s) && p.ImprovementProposal? && s.hub.clock <= offer.now
      modifies jobs, improvements
      ensures Has(Schedule(s, config, turnId, p, offer, None).0) && result == Schedule(s, config, turnId, p, offer, None).1
    {
      if p.workspaceId != config.workspaceId { return Rejected("SELF_IMPROVEMENT_WORKSPACE_REJECTED"); }
      var (request, b) := (RequestOf(turnId, p), BindingOf(turnId, p));
      var resolved := Resolve(jobs.State(), request);
      if resolved.OtherRequest? { return Rejected("JOB_IDEMPOTENCY_CONFLICT"); }
      if resolved.DuplicateOf? {
        result := BindJob(s, resolved.jobId, b, offer.now);
        return;
      }
      if offer.patchExists { return Rejected("SELF_IMPROVEMENT_ID_CONFLICT"); }
      if offer.runner.None? { return Rejected("NO_COMPATIBLE_RUNNER"); }
      if !Creatable(request, offer) { return REFUSED; }
      NewJobIsTheJob(s, request, offer);
      CreatedAs(s.hub, request, offer.runner.value, offer);
      var created := jobs.CreateJob(offer.runner.value, request, offer.createdAt, offer.now);
      result := BindJob(AfterHub(s, CreateStep(request, offer.runner.value, offer)), created.value, b, offer.now);
    }
  }
}
