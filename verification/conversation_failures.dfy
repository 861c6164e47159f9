/** Two runs in which a turn is told of an error although its Job exists: one is mended by a retry, the other never. */
module ConversationFailures {
  import opened Wrappers
  import Jobs
  import Hub = HubRuns
  import opened Conversation
  import opened ConversationScheduling
  import opened ConversationRuns
  import opened ConversationGuarantees

  const HELLO: Message := Message("c", 0, "web", "please", [])

  const OFFER: Offer := Offer(Some(7), false, 0, 0)

  const DONE: Turn := Turn(HELLO, JobProposed, Some("ok"), None, None, None, None)

  /** The message is asked of the model, which answers with this proposal. */
  function ProposalSteps(p: Proposal): seq<Step> {
    [Submits(HELLO), Thinks("c"), Asks("c"), Receives("c", Proposes("ok", p))]
  }

  /** The one turn and its submission, after such an answer. */
  function Proposing(config: Config, p: Proposal): World {
    Fresh(0, config).(
      registry := Registry(map[0 := DONE.(proposal := Some(p))], map[KeyOf(HELLO) := 0], 1),
      active := map["c" := Handler(0, Scheduling)], calls := map[0 := 1])
  }

  function Dialogue(config: Config, status: Status, at: Place, calls: nat): World {
    Fresh(0, config).(
      registry := Registry(map[0 := Turn(HELLO, status, None, None, None, None, None)], map[KeyOf(HELLO) := 0], 1),
      active := map["c" := Handler(0, at)], calls := map[0 := calls])
  }

  lemma DialogueSteps(config: Config)
    ensures Next(Fresh(0, config), Submits(HELLO)) == Dialogue(config, Queued, Starting, 0)
    ensures Next(Dialogue(config, Queued, Starting, 0), Thinks("c")) == Dialogue(config, Thinking, Asking(0), 0)
    ensures Next(Dialogue(config, Thinking, Asking(0), 0), Asks("c")) == Dialogue(config, Thinking, Awaiting(0), 1)
  {
  }

  lemma LastDialogueStep(config: Config, p: Proposal)
    ensures Next(Dialogue(config, Thinking, Awaiting(0), 1), Receives("c", Proposes("ok", p))) == Proposing(config, p)
  {
  }

  lemma ProposalRun(config: Config, p: Proposal)
    ensures RunAll(Fresh(0, config), ProposalSteps(p)) == Proposing(config, p)
  {
    FourSteps(Fresh(0, config), Submits(HELLO), Thinks("c"), Asks("c"), Receives("c", Proposes("ok", p)));
    DialogueSteps(config);
    LastDialogueStep(config, p);
  }

  lemma {:induction false} RunAllAppend(w: World, a: seq<Step>, b: seq<Step>)
    ensures RunAll(w, a + b) == RunAll(RunAll(w, a), b)
    decreases |a|
  {
    if a == [] {
      assert a + b == b;
    } else {
      assert (a + b)[0] == a[0] && (a + b)[1..] == a[1..] + b;
      RunAllAppend(Next(w, a[0]), a[1..], b);
    }
  }

  lemma ThreeSteps(w: World, a: Step, b: Step, c: Step)
    ensures RunAll(w, [a, b, c]) == Next(Next(Next(w, a), b), c)
  {
    var steps := [a, b, c];
    assert steps[1..] == [b, c] && [b, c][1..] == [c] && [c][1..] == [];
    assert RunAll(Next(w, a), [b, c]) == RunAll(Next(Next(w, a), b), [c]);
  }

  /** The table with the one Job of the turn. */
  function OneJob(p: Proposal): Jobs.Table {
    Jobs.Create(Hub.Fresh(0).hub.jobs, 7, RequestOf(0, p), 0, 0).value.0
  }

  function CreatedHub(p: Proposal): Hub.World {
    Hub.Next(Hub.Fresh(0), CreateStep(RequestOf(0, p), 7, OFFER))
  }

  lemma HubCreates(p: Proposal)
    ensures CreatedHub(p).hub.jobs == OneJob(p) && CreatedHub(p).clock == 0
    ensures 0 in OneJob(p).jobs && OneJob(p).jobs[0].request == RequestOf(0, p)
    ensures RequestOf(0, p).tool != Jobs.Agent ==> OneJob(p).jobs[0].status == Jobs.WaitApproval && OneJob(p).jobs[0].risk == Jobs.R1
  {
    CreatedAs(Hub.Fresh(0), RequestOf(0, p), 7, OFFER);
  }

  // ---- A self-improvement ----

  const IMPROVEMENT: Proposal := ImprovementProposal("friday", Jobs.Codex, "{}", "improve")

  const HERE: Config := Config(false, "friday")

  /** The Hub dies between the creation of the Job and its registration, and the Owner then stops the Job. */
  const STOPPED_UNBOUND: seq<Step> := ProposalSteps(IMPROVEMENT) + [
    Schedules("c", OFFER, Some(1)),
    Restarts(HERE),
    OnHub(Hub.Step(Hub.CancelJob(0), 0, 1))]

  lemma CreationCommits()
    ensures var (s, result) := Schedule(StoreOf(Proposing(HERE, IMPROVEMENT)), HERE, 0, IMPROVEMENT, OFFER, Some(1));
      s == Store(CreatedHub(IMPROVEMENT), map[], []) && result == REFUSED
  {
    HubCreates(IMPROVEMENT);
  }

  /** The turn waits for its Job, and nothing runs. */
  function Waiting(hub: Hub.World): World {
    Proposing(HERE, IMPROVEMENT).(hub := hub, active := map[])
  }

  lemma CreationRuns()
    ensures Next(Proposing(HERE, IMPROVEMENT), Schedules("c", OFFER, Some(1))) ==
      Proposing(HERE, IMPROVEMENT).(hub := CreatedHub(IMPROVEMENT), active := map["c" := Handler(0, Recording(REFUSED))])
  {
    ScheduleStepIs(Proposing(HERE, IMPROVEMENT), Schedules("c", OFFER, Some(1)));
    CreationCommits();
  }

  lemma CrashAfterCreation()
    ensures Next(Next(Proposing(HERE, IMPROVEMENT), Schedules("c", OFFER, Some(1))), Restarts(HERE)) == Waiting(CreatedHub(IMPROVEMENT))
  {
    CreationRuns();
    RestartIs(Proposing(HERE, IMPROVEMENT).(hub := CreatedHub(IMPROVEMENT), active := map["c" := Handler(0, Recording(REFUSED))]), HERE);
    assert Repair(Proposing(HERE, IMPROVEMENT).registry) == Proposing(HERE, IMPROVEMENT).registry;
  }

  lemma JobIsStopped()
    ensures var hub := Hub.Next(CreatedHub(IMPROVEMENT), Hub.Step(Hub.CancelJob(0), 0, 1));
      hub.hub.jobs == Jobs.SetStatus(OneJob(IMPROVEMENT), 0, Jobs.Cancelled) && hub.clock == 0
  {
    HubCreates(IMPROVEMENT);
    NextIsCommit(CreatedHub(IMPROVEMENT), Hub.Step(Hub.CancelJob(0), 0, 1), Jobs.SetStatus(OneJob(IMPROVEMENT), 0, Jobs.Cancelled));
  }

  /** A state that the code can reach and never leaves: the message is refused for ever, though the Job of its turn exists. */
  lemma RefusedForEverCanHappen()
    ensures var w := Reach(0, HERE, STOPPED_UNBOUND);
      && WaitsForJob(w, HELLO, 0) && Stranded(w, 0, 0) && w.hub.clock == 0
      && Told(w, RunAll(w, Retry(HELLO, OFFER)), 0, Rejected("SELF_IMPROVEMENT_JOB_REJECTED"))
  {
    var (w, stop) := (Proposing(HERE, IMPROVEMENT), OnHub(Hub.Step(Hub.CancelJob(0), 0, 1)));
    ProposalRun(HERE, IMPROVEMENT);
    RunAllAppend(Fresh(0, HERE), ProposalSteps(IMPROVEMENT), [Schedules("c", OFFER, Some(1)), Restarts(HERE), stop]);
    ThreeSteps(w, Schedules("c", OFFER, Some(1)), Restarts(HERE), stop);
    CrashAfterCreation();
    HubCreates(IMPROVEMENT);
    JobIsStopped();
    OnHubIs(Waiting(CreatedHub(IMPROVEMENT)), stop.step);
    ReachIsOk(0, HERE, STOPPED_UNBOUND);
    StrandedIsRefused(Reach(0, HERE, STOPPED_UNBOUND), HELLO, 0, 0, OFFER);
  }

  // ---- A Job that policy approves ----

  const TASK: Proposal := JobProposal("w", Jobs.Codex, "test", "run the tests")

  const AUTOMATIC: Config := Config(true, "friday")

  /** The Owner approves the Job while the submission waits for the event log. */
  const APPROVED_MEANWHILE: seq<Step> := ProposalSteps(TASK) + [
    Schedules("c", OFFER, None),
    OnHub(ApproveStep(0, 0)),
    Approves("c", 0, None),
    Records("c")]

  lemma TaskIsScheduled()
    ensures Next(Proposing(AUTOMATIC, TASK), Schedules("c", OFFER, None)) ==
      Proposing(AUTOMATIC, TASK).(hub := CreatedHub(TASK), active := map["c" := Handler(0, Approving(0))])
  {
    ScheduleStepIs(Proposing(AUTOMATIC, TASK), Schedules("c", OFFER, None));
    HubCreates(TASK);
  }

  function ApprovedHub(): Hub.World {
    Hub.Next(CreatedHub(TASK), ApproveStep(0, 0))
  }

  lemma OwnerIsFirst()
    ensures ApprovedHub().hub.jobs == Jobs.Sign(OneJob(TASK), 0, 0) && ApprovedHub().clock == 0
    ensures FinishPolicy(Store(ApprovedHub(), map[], []), 0, 0, None) ==
      (Store(ApprovedHub(), map[], [0]), Rejected("JOB_PROPOSAL_REJECTED"))
  {
    HubCreates(TASK);
    NextIsCommit(CreatedHub(TASK), ApproveStep(0, 0), Jobs.Sign(OneJob(TASK), 0, 0));
    assert Store(ApprovedHub(), map[], []).appended + [0] == [0];
  }

  /** After the approval, with the submission here. */
  function Approved(at: Place): World {
    Proposing(AUTOMATIC, TASK).(hub := ApprovedHub(), active := map["c" := Handler(0, at)])
  }

  lemma PolicyReports(w: World, c: string, s: Store, result: Scheduled)
    requires c in w.active && w.active[c].at == Approving(0) && w.hub.clock <= 0
    requires FinishPolicy(StoreOf(w), 0, 0, None) == (s, result)
    ensures Next(w, Approves(c, 0, None)) == Go(WithStore(w, s), c, Recording(result))
  {
    ApproveStepIs(w, Approves(c, 0, None));
  }

  lemma PolicyIsLate()
    ensures Next(Approved(Approving(0)), Approves("c", 0, None)) ==
      Approved(Recording(Rejected("JOB_PROPOSAL_REJECTED"))).(appended := [0])
  {
    OwnerIsFirst();
    PolicyReports(Approved(Approving(0)), "c", Store(ApprovedHub(), map[], [0]), Rejected("JOB_PROPOSAL_REJECTED"));
  }

  lemma ErrorIsRecorded()
    ensures var w := Approved(Recording(Rejected("JOB_PROPOSAL_REJECTED"))).(appended := [0]);
      Next(w, Records("c")) == w.(active := map[],
        registry := Put(w.registry, 0, w.registry.turns[0].(schedulingError := Some("JOB_PROPOSAL_REJECTED"))))
  {
  }

  lemma RunTillTheError()
    ensures var w := Reach(0, AUTOMATIC, APPROVED_MEANWHILE);
      w == Approved(Starting).(appended := [0], active := map[], registry := Put(Proposing(AUTOMATIC, TASK).registry, 0,
        DONE.(proposal := Some(TASK), schedulingError := Some("JOB_PROPOSAL_REJECTED"))))
  {
    var w := Proposing(AUTOMATIC, TASK);
    ProposalRun(AUTOMATIC, TASK);
    RunAllAppend(Fresh(0, AUTOMATIC), ProposalSteps(TASK),
      [Schedules("c", OFFER, None), OnHub(ApproveStep(0, 0)), Approves("c", 0, None), Records("c")]);
    FourSteps(w, Schedules("c", OFFER, None), OnHub(ApproveStep(0, 0)), Approves("c", 0, None), Records("c"));
    TaskIsScheduled();
    OnHubIs(w.(hub := CreatedHub(TASK), active := map["c" := Handler(0, Approving(0))]), ApproveStep(0, 0));
    PolicyIsLate();
    ErrorIsRecorded();
  }

  /** Then the approval by policy throws: the turn is told of an error though its Job runs, and the log holds the event of an
      approval that the policy never gave. A retry records the Job. */
  lemma ErrorThoughTheJobRuns()
    ensures var w := Reach(0, AUTOMATIC, APPROVED_MEANWHILE);
      && WaitsForJob(w, HELLO, 0) && JobExistsFor(w, 0, 0) && w.hub.hub.jobs.jobs[0].status == Jobs.Dispatched
      && w.registry.turns[0].schedulingError == Some("JOB_PROPOSAL_REJECTED") && w.appended == [0]
      && Told(w, RunAll(w, Retry(HELLO, OFFER)), 0, Created(0))
  {
    RunTillTheError();
    HubCreates(TASK);
    OwnerIsFirst();
    RetryRecordsTheJobIff(0, AUTOMATIC, APPROVED_MEANWHILE, HELLO, 0, 0, OFFER);
  }
}
