/** What a conversation promises over whole runs, across retries, duplicates and crashes. */
module ConversationGuarantees {
  import opened Wrappers
  import Jobs
  import Hub = HubRuns
  import opened Conversation
  import opened ImprovementJobs
  import opened ConversationScheduling
  import opened ConversationRuns
  import opened ConversationBindings

  function Reach(clock: Time, config: Config, steps: seq<Step>): World {
    RunAll(Fresh(clock, config), steps)
  }

  lemma ReachIsOk(clock: Time, config: Config, steps: seq<Step>)
    ensures Inv(Reach(clock, config, steps))
  {
    FreshIsOk(clock, config);
    RunKeepsInv(Fresh(clock, config), steps);
  }

  lemma ReachBinds(clock: Time, config: Config, steps: seq<Step>)
    ensures BindingsOk(Reach(clock, config, steps))
  {
    FreshIsOk(clock, config);
    RunKeepsBindings(Fresh(clock, config), steps);
  }

  // ---- Model calls ----

  /** The step asks the model on behalf of this message of this channel. */
  predicate AsksFor(w: World, s: Step, key: (string, Id)) {
    && s.Asks? && s.conversation in w.active && w.active[s.conversation].at.Asking?
    && w.active[s.conversation].turnId in w.registry.turns
    && KeyOf(w.registry.turns[w.active[s.conversation].turnId].message) == key
  }

  /** How often a run asks the model for a message. */
  function ModelCalls(w: World, steps: seq<Step>, key: (string, Id)): nat
    decreases |steps|
  {
    if steps == [] then 0
    else (if AsksFor(w, steps[0], key) then 1 else 0) + ModelCalls(Next(w, steps[0]), steps[1..], key)
  }

  function CallsFor(w: World, key: (string, Id)): nat {
    if key in w.registry.byMessage && w.registry.byMessage[key] in w.calls then w.calls[w.registry.byMessage[key]] else 0
  }

  lemma ActiveTurnIsIndexed(w: World, c: string)
    requires Local(w) && c in w.active
    ensures var turnId := w.active[c].turnId;
      && turnId in w.registry.turns && turnId in w.calls
      && KeyOf(w.registry.turns[turnId].message) in w.registry.byMessage
      && w.registry.byMessage[KeyOf(w.registry.turns[turnId].message)] == turnId
  {
    assert HandlerOk(w, c, w.active[c]);
  }

  lemma AskCounts(w: World, c: string, key: (string, Id))
    requires Local(w)
    ensures CallsFor(Next(w, Asks(c)), key) == CallsFor(w, key) + if AsksFor(w, Asks(c), key) then 1 else 0
  {
    if c in w.active {
      ActiveTurnIsIndexed(w, c);
    }
  }

  lemma SubmitCounts(w: World, m: Message, key: (string, Id))
    requires Local(w)
    ensures CallsFor(Submit(w, m), key) == CallsFor(w, key)
  {
  }

  lemma CallbacksCountNothing(w: World, s: Step, key: (string, Id))
    requires s.Schedules? || s.Approves?
    ensures CallsFor(Next(w, s), key) == CallsFor(w, key)
  {
    if s.Schedules? { ScheduleStepIs(w, s); } else { ApproveStepIs(w, s); }
  }

  lemma OtherStepsCountNothing(w: World, s: Step, key: (string, Id))
    requires !s.Asks? && !s.Submits? && !s.Schedules? && !s.Approves?
    ensures CallsFor(Next(w, s), key) == CallsFor(w, key)
  {
  }

  lemma {:induction false} CallsAreCounted(w: World, steps: seq<Step>, key: (string, Id))
    requires Inv(w)
    ensures CallsFor(RunAll(w, steps), key) == CallsFor(w, key) + ModelCalls(w, steps, key)
    decreases |steps|
  {
    if steps != [] {
      NextIsGood(w, steps[0]);
      CallsAreCounted(Next(w, steps[0]), steps[1..], key);
      if steps[0].Asks? {
        AskCounts(w, steps[0].conversation, key);
      } else if steps[0].Submits? {
        SubmitCounts(w, steps[0].message, key);
      } else if steps[0].Schedules? || steps[0].Approves? {
        CallbacksCountNothing(w, steps[0], key);
      } else {
        OtherStepsCountNothing(w, steps[0], key);
      }
    }
  }

  lemma CallsAreFew(w: World, key: (string, Id))
    requires Local(w)
    ensures CallsFor(w, key) <= MAX_TOOL_CALLS_PER_TURN + 1
  {
    if key in w.registry.byMessage {
      var turnId := w.registry.byMessage[key];
      assert CallsOk(w.calls, turnId, w.registry.turns[turnId]);
    }
  }

  /** However often a message is submitted, the model is asked at most five times for it, over the whole life of the Hub. */
  lemma AtMostFiveModelCalls(clock: Time, config: Config, steps: seq<Step>, channel: string, messageId: Id)
    ensures ModelCalls(Fresh(clock, config), steps, (channel, messageId)) <= 5
  {
    FreshIsOk(clock, config);
    CallsAreCounted(Fresh(clock, config), steps, (channel, messageId));
    ReachIsOk(clock, config, steps);
    CallsAreFew(Reach(clock, config, steps), (channel, messageId));
  }

  /** A message of a channel has at most one turn. */
  lemma OneTurnPerMessage(clock: Time, config: Config, steps: seq<Step>, a: Id, b: Id)
    requires var turns := Reach(clock, config, steps).registry.turns;
      a in turns && b in turns && KeyOf(turns[a].message) == KeyOf(turns[b].message)
    ensures a == b
  {
    ReachIsOk(clock, config, steps);
    assert Reach(clock, config, steps).registry.byMessage[KeyOf(Reach(clock, config, steps).registry.turns[a].message)] == a;
  }

  // ---- The one Job of a turn ----

  /** At most one Job ever carries a turn's id, whoever created it. */
  lemma OneJobPerTurn(clock: Time, config: Config, steps: seq<Step>, i: Id, j: Id)
    requires var jobs := Reach(clock, config, steps).hub.hub.jobs.jobs;
      i in jobs && j in jobs && jobs[i].request.idempotencyKey == jobs[j].request.idempotencyKey
    ensures i == j
  {
    ReachIsOk(clock, config, steps);
    OneJobPerKey(Reach(clock, config, steps).hub, i, j);
  }

  lemma OneJobPerKey(hub: Hub.World, i: Id, j: Id)
    requires Hub.Inv(hub) && i in hub.hub.jobs.jobs && j in hub.hub.jobs.jobs
    requires hub.hub.jobs.jobs[i].request.idempotencyKey == hub.hub.jobs.jobs[j].request.idempotencyKey
    ensures i == j
  {
    assert Hub.KeysOk(hub.hub.jobs);
    assert hub.hub.jobs.byKey[hub.hub.jobs.jobs[i].request.idempotencyKey] == i;
  }

  /** A turn that names a Job names the one Job of its id, created for its own proposal. */
  lemma TurnNamesItsJob(clock: Time, config: Config, steps: seq<Step>, turnId: Id)
    requires var turns := Reach(clock, config, steps).registry.turns; turnId in turns && turns[turnId].jobId.Some?
    ensures var w := Reach(clock, config, steps);
      var (turn, jobs) := (w.registry.turns[turnId], w.hub.hub.jobs.jobs);
      && turn.proposal.Some? && turn.jobId.value in jobs
      && jobs[turn.jobId.value].request == RequestOf(turnId, turn.proposal.value)
      && forall j <- jobs | jobs[j].request.idempotencyKey == turnId :: j == turn.jobId.value
  {
    ReachIsOk(clock, config, steps);
    var w := Reach(clock, config, steps);
    assert TurnOk(w.hub.hub.jobs, turnId, w.registry.turns[turnId]);
    forall j <- w.hub.hub.jobs.jobs | w.hub.hub.jobs.jobs[j].request.idempotencyKey == turnId
      ensures j == w.registry.turns[turnId].jobId.value
    {
      OneJobPerKey(w.hub, j, w.registry.turns[turnId].jobId.value);
    }
  }

  /** Once a turn names a Job, it names that Job for ever; its message and its proposal never change either. */
  lemma JobIdNeverChanges(clock: Time, config: Config, steps: seq<Step>, more: seq<Step>, turnId: Id)
    requires turnId in Reach(clock, config, steps).registry.turns
    ensures var (turns, turns') := (Reach(clock, config, steps).registry.turns, RunAll(Reach(clock, config, steps), more).registry.turns);
      turnId in turns' && TurnExtends(turns[turnId], turns'[turnId])
  {
    ReachIsOk(clock, config, steps);
    RunKeepsInv(Reach(clock, config, steps), more);
  }

  // ---- What binds a Job ----

  /** A binding is never undone or changed, and no two Jobs are bound to one improvement. */
  lemma BoundForEver(clock: Time, config: Config, steps: seq<Step>, more: seq<Step>, i: Id, j: Id)
    requires var bindings := Reach(clock, config, steps).bindings; i in bindings && j in bindings
    ensures var (w, w') := (Reach(clock, config, steps), RunAll(Reach(clock, config, steps), more));
      && i in w.hub.hub.jobs.jobs && i in w'.bindings && w'.bindings[i] == w.bindings[i]
      && (w.bindings[i].improvementId == w.bindings[j].improvementId ==> i == j)
  {
    ReachIsOk(clock, config, steps);
    ReachBinds(clock, config, steps);
    RunKeepsBindings(Reach(clock, config, steps), more);
  }

  /** A self-improvement turn names a Job only if that Job is bound to the turn's own improvement, with the turn's metadata. */
  lemma NamedJobIsBound(clock: Time, config: Config, steps: seq<Step>, turnId: Id)
    requires var turns := Reach(clock, config, steps).registry.turns;
      turnId in turns && turns[turnId].jobId.Some? && turns[turnId].proposal.Some? && turns[turnId].proposal.value.ImprovementProposal?
    ensures var w := Reach(clock, config, steps);
      var turn := w.registry.turns[turnId];
      turn.jobId.value in w.bindings && w.bindings[turn.jobId.value] == BindingOf(turnId, turn.proposal.value)
  {
    ReachBinds(clock, config, steps);
    assert TurnNamesBound(Reach(clock, config, steps), turnId);
  }

  // ---- Scheduling for the first time ----

  /** A step of the schedule is its callback, and the place it leads to. */
  lemma ScheduledTurnIs(w: World, c: string, offer: Offer, fails: Option<nat>)
    requires Local(w) && At(w, c, Scheduling) && w.hub.clock <= offer.now
    ensures var turnId := w.active[c].turnId;
      && turnId in w.registry.turns && w.registry.turns[turnId].proposal.Some?
      && var (s, result) := Schedule(StoreOf(w), w.config, turnId, w.registry.turns[turnId].proposal.value, offer, fails);
         var w' := Next(w, Schedules(c, offer, fails));
         StoreOf(w') == s && c in w'.active && JobAt(w'.active[c].at) == JobAt(Recording(result))
  {
    assert HandlerOk(w, c, w.active[c]);
    ScheduleStepIs(w, Schedules(c, offer, fails));
    ScheduleTurnIs(w, c, offer, fails);
    var p := w.registry.turns[w.active[c].turnId].proposal.value;
    var (s, result) := Schedule(StoreOf(w), w.config, w.active[c].turnId, p, offer, fails);
    PlaceAfterIs(s, w.config, p, result);
  }

  lemma NextJobIsUnbound(w: World)
    requires Hub.Inv(w.hub) && BindingsOk(w)
    ensures w.hub.hub.jobs.minted !in w.bindings
  {
    assert Hub.JobsOk(w.hub);
  }

  lemma FirstSchedulingIs(w: World, offer: Offer, turnId: Id, p: Proposal, s: Store, result: Scheduled)
    requires w.hub.hub.jobs.minted !in w.bindings && w.hub.clock <= offer.now && turnId !in w.hub.hub.jobs.byKey
    requires (s, result) == Schedule(StoreOf(w), w.config, turnId, p, offer, None)
    ensures turnId in s.hub.hub.jobs.byKey <==> CreatesJob(w.config, turnId, p, offer)
    ensures JobAt(Recording(result)).Some? <==>
      CreatesJob(w.config, turnId, p, offer) && (p.ImprovementProposal? ==> !Taken(w.bindings, OfTurn(turnId)))
  {
    NewJobIsReported(StoreOf(w), w.config, turnId, p, offer);
  }

  /** A first scheduling creates the Job exactly when CreatesJob says so, and then reports it unless the turn's improvement is
      already bound to another Job; in that case the turn is told of an error though its Job exists. */
  lemma FirstSchedulingReportsIff(clock: Time, config: Config, steps: seq<Step>, c: string, offer: Offer)
    requires var w := Reach(clock, config, steps);
      At(w, c, Scheduling) && w.hub.clock <= offer.now && w.active[c].turnId !in w.hub.hub.jobs.byKey
    ensures var (w, w') := (Reach(clock, config, steps), Next(Reach(clock, config, steps), Schedules(c, offer, None)));
      var turnId := w.active[c].turnId;
      && turnId in w.registry.turns && w.registry.turns[turnId].proposal.Some?
      && var p := w.registry.turns[turnId].proposal.value;
         && (turnId in w'.hub.hub.jobs.byKey <==> CreatesJob(w.config, turnId, p, offer))
         && c in w'.active
         && (JobAt(w'.active[c].at).Some? <==>
               CreatesJob(w.config, turnId, p, offer) && (p.ImprovementProposal? ==> !Taken(w.bindings, OfTurn(turnId))))
  {
    var w := Reach(clock, config, steps);
    ReachIsOk(clock, config, steps);
    ReachBinds(clock, config, steps);
    NextJobIsUnbound(w);
    ScheduledTurnIs(w, c, offer, None);
    var turnId := w.active[c].turnId;
    var p := w.registry.turns[turnId].proposal.value;
    var (s, result) := Schedule(StoreOf(w), w.config, turnId, p, offer, None);
    FirstSchedulingIs(w, offer, turnId, p, s, result);
  }

  lemma PolicyStepIs(w: World, c: string, now: Time)
    requires Hub.Inv(w.hub) && Local(w) && c in w.active && w.active[c].at.Approving? && w.hub.clock <= now
    ensures var (jobId, w') := (w.active[c].at.jobId, Next(w, Approves(c, now, None)));
      && jobId in w.hub.hub.jobs.jobs && c in w'.active && w'.appended == w.appended + [jobId]
      && if w.hub.hub.jobs.jobs[jobId].status == Jobs.WaitApproval
         then w'.active[c].at == Recording(Created(jobId))
         else w'.active[c].at == Recording(Rejected("JOB_PROPOSAL_REJECTED")) && w'.hub == w.hub
  {
    var jobId := w.active[c].at.jobId;
    ApprovingHasItsJob(w, c);
    ImprovementJobIsR1(StoreOf(w), RequestOf(w.active[c].turnId, w.registry.turns[w.active[c].turnId].proposal.value), jobId);
    ApproveStepIs(w, Approves(c, now, None));
    PolicyReportsIff(StoreOf(w), jobId, now);
  }

  /** While the submission waited for the event log, the Job may have been approved or stopped by somebody else. Exactly then the
      turn is told of an error though its Job exists, and the log tells of an approval that the policy did not give. */
  lemma PolicyApprovalIsReportedIff(clock: Time, config: Config, steps: seq<Step>, c: string, now: Time)
    requires var w := Reach(clock, config, steps); c in w.active && w.active[c].at.Approving? && w.hub.clock <= now
    ensures var (w, w') := (Reach(clock, config, steps), Next(Reach(clock, config, steps), Approves(c, now, None)));
      var jobId := w.active[c].at.jobId;
      && jobId in w.hub.hub.jobs.jobs && c in w'.active && w'.appended == w.appended + [jobId]
      && if w.hub.hub.jobs.jobs[jobId].status == Jobs.WaitApproval
         then w'.active[c].at == Recording(Created(jobId))
         else w'.active[c].at == Recording(Rejected("JOB_PROPOSAL_REJECTED")) && w'.hub == w.hub
  {
    ReachIsOk(clock, config, steps);
    PolicyStepIs(Reach(clock, config, steps), c, now);
  }

  // ---- Retries ----

  /** The message's turn waits for a Job, and no submission of its conversation runs. */
  predicate WaitsForJob(w: World, m: Message, turnId: Id) {
    && KeyOf(m) in w.registry.byMessage && w.registry.byMessage[KeyOf(m)] == turnId
    && turnId in w.registry.turns && w.registry.turns[turnId].message == m && Schedulable(w.registry.turns[turnId])
    && m.conversationId !in w.active
  }

  /** The Job that was created for this turn and its proposal. */
  ghost predicate JobExistsFor(w: World, turnId: Id, jobId: Id) {
    turnId in w.registry.turns && IsJobOf(w.hub.hub.jobs, turnId, w.registry.turns[turnId], jobId)
  }

  /** The message is sent again, and nothing interferes. The approval by policy is skipped when none is due. */
  function Retry(m: Message, offer: Offer): seq<Step> {
    var c := m.conversationId;
    [Submits(m), Schedules(c, offer, None), Approves(c, offer.now, None), Records(c)]
  }

  /** The turn's submission at this place, everything else as in w. */
  function AtPlace(w: World, c: string, turnId: Id, at: Place): World {
    w.(active := w.active[c := Handler(turnId, at)])
  }

  lemma RetrySubmits(w: World, m: Message, turnId: Id)
    requires WaitsForJob(w, m, turnId)
    ensures Next(w, Submits(m)) == AtPlace(w, m.conversationId, turnId, Scheduling)
  {
  }

  lemma RetrySchedules(w: World, m: Message, turnId: Id, offer: Offer)
    requires WaitsForJob(w, m, turnId) && w.hub.clock <= offer.now
    ensures var (c, p) := (m.conversationId, w.registry.turns[turnId].proposal.value);
      var (s, result) := Schedule(StoreOf(w), w.config, turnId, p, offer, None);
      Next(AtPlace(w, c, turnId, Scheduling), Schedules(c, offer, None)) ==
        AtPlace(WithStore(w, s), c, turnId, PlaceAfter(s, w.config, p, result))
  {
    var (c, p) := (m.conversationId, w.registry.turns[turnId].proposal.value);
    var before := AtPlace(w, c, turnId, Scheduling);
    ScheduleStepIs(before, Schedules(c, offer, None));
    assert StoreOf(before) == StoreOf(w);
  }

  lemma RetryApproves(w: World, c: string, turnId: Id, jobId: Id, now: Time)
    requires w.hub.clock <= now
    ensures var (s, result) := FinishPolicy(StoreOf(w), jobId, now, None);
      Next(AtPlace(w, c, turnId, Approving(jobId)), Approves(c, now, None)) == AtPlace(WithStore(w, s), c, turnId, Recording(result))
  {
    var before := AtPlace(w, c, turnId, Approving(jobId));
    ApproveStepIs(before, Approves(c, now, None));
    assert StoreOf(before) == StoreOf(w);
  }

  lemma NoApprovalIsDue(w: World, c: string, turnId: Id, result: Scheduled, now: Time)
    ensures var w' := AtPlace(w, c, turnId, Recording(result)); Next(w', Approves(c, now, None)) == w'
  {
    ApproveStepIs(AtPlace(w, c, turnId, Recording(result)), Approves(c, now, None));
  }

  lemma RetryRecords(w: World, c: string, turnId: Id, result: Scheduled)
    requires c !in w.active && turnId in w.registry.turns && Schedulable(w.registry.turns[turnId])
    ensures Next(AtPlace(w, c, turnId, Recording(result)), Records(c)) ==
      w.(registry := Put(w.registry, turnId, WithResult(w.registry.turns[turnId], result)))
  {
    RecordIs(AtPlace(w, c, turnId, Recording(result)), c);
    assert w.active[c := Handler(turnId, Recording(result))] - {c} == w.active;
  }

  lemma FourSteps(w: World, a: Step, b: Step, c: Step, d: Step)
    ensures RunAll(w, [a, b, c, d]) == Next(Next(Next(Next(w, a), b), c), d)
  {
    var steps := [a, b, c, d];
    assert steps[1..] == [b, c, d] && [b, c, d][1..] == [c, d] && [c, d][1..] == [d] && [d][1..] == [];
    assert RunAll(Next(w, a), [b, c, d]) == RunAll(Next(Next(w, a), b), [c, d]);
    assert RunAll(Next(Next(w, a), b), [c, d]) == RunAll(Next(Next(Next(w, a), b), c), [d]);
  }

  /** The turn has been told this; else only what the callbacks write has changed. */
  ghost predicate Told(w: World, w': World, turnId: Id, result: Scheduled) {
    && turnId in w.registry.turns
    && w' == WithStore(w, StoreOf(w')).(registry := Put(w.registry, turnId, WithResult(w.registry.turns[turnId], result)))
  }

  /** A retry that is not approved by policy ends with what its callback reports. */
  lemma RetryWithoutPolicy(w: World, m: Message, turnId: Id, offer: Offer)
    requires WaitsForJob(w, m, turnId) && w.hub.clock <= offer.now
    requires var p := w.registry.turns[turnId].proposal.value;
      var (s, result) := Schedule(StoreOf(w), w.config, turnId, p, offer, None); PlaceAfter(s, w.config, p, result) == Recording(result)
    ensures var w' := RunAll(w, Retry(m, offer));
      var (s, result) := Schedule(StoreOf(w), w.config, turnId, w.registry.turns[turnId].proposal.value, offer, None);
      Told(w, w', turnId, result) && StoreOf(w') == s
  {
    var c := m.conversationId;
    var (s, result) := Schedule(StoreOf(w), w.config, turnId, w.registry.turns[turnId].proposal.value, offer, None);
    FourSteps(w, Submits(m), Schedules(c, offer, None), Approves(c, offer.now, None), Records(c));
    RetrySubmits(w, m, turnId);
    RetrySchedules(w, m, turnId, offer);
    NoApprovalIsDue(WithStore(w, s), c, turnId, result, offer.now);
    RetryRecords(WithStore(w, s), c, turnId, result);
  }

  lemma RetryWithPolicy(w: World, m: Message, turnId: Id, jobId: Id, offer: Offer)
    requires WaitsForJob(w, m, turnId) && w.hub.clock <= offer.now
    requires var p := w.registry.turns[turnId].proposal.value;
      && Schedule(StoreOf(w), w.config, turnId, p, offer, None) == (StoreOf(w), Created(jobId))
      && PlaceAfter(StoreOf(w), w.config, p, Created(jobId)) == Approving(jobId)
    ensures var w' := RunAll(w, Retry(m, offer));
      var (s, result) := FinishPolicy(StoreOf(w), jobId, offer.now, None);
      Told(w, w', turnId, result) && StoreOf(w') == s
  {
    var c := m.conversationId;
    var (s, result) := FinishPolicy(StoreOf(w), jobId, offer.now, None);
    FourSteps(w, Submits(m), Schedules(c, offer, None), Approves(c, offer.now, None), Records(c));
    RetrySubmits(w, m, turnId);
    RetrySchedules(w, m, turnId, offer);
    assert WithStore(w, StoreOf(w)) == w;
    RetryApproves(w, c, turnId, jobId, offer.now);
    RetryRecords(WithStore(w, s), c, turnId, result);
  }

  /** What a retry of a turn whose Job exists leaves behind. */
  ghost predicate RetriedAs(w: World, w': World, turnId: Id, jobId: Id, refusal: Option<string>) {
    && Told(w, w', turnId, if refusal.Some? then Rejected(refusal.value) else Created(jobId))
    && w'.hub.hub.jobs.jobs.Keys == w.hub.hub.jobs.jobs.Keys
    && (refusal.Some? ==> StoreOf(w') == StoreOf(w))
  }

  lemma RetryOfJob(w: World, m: Message, turnId: Id, jobId: Id, offer: Offer)
    requires Inv(w) && WaitsForJob(w, m, turnId) && JobExistsFor(w, turnId, jobId) && w.hub.clock <= offer.now
    requires w.registry.turns[turnId].proposal.value.JobProposal?
    ensures RetriedAs(w, RunAll(w, Retry(m, offer)), turnId, jobId, None)
  {
    var p := w.registry.turns[turnId].proposal.value;
    KeyLeadsToJob(w.hub, jobId);
    ExistingJobIsReported(StoreOf(w), w.config, turnId, p, jobId, offer);
    if NeedsPolicy(w.config, w.hub.hub.jobs.jobs[jobId]) {
      RetryWithPolicy(w, m, turnId, jobId, offer);
      PolicyReportsIff(StoreOf(w), jobId, offer.now);
    } else {
      RetryWithoutPolicy(w, m, turnId, offer);
    }
  }

  lemma RetryOfImprovement(w: World, m: Message, turnId: Id, jobId: Id, offer: Offer)
    requires Inv(w) && WaitsForJob(w, m, turnId) && JobExistsFor(w, turnId, jobId) && w.hub.clock <= offer.now
    requires w.registry.turns[turnId].proposal.value.ImprovementProposal?
    ensures RetriedAs(w, RunAll(w, Retry(m, offer)), turnId, jobId,
      RefusalOf(StoreOf(w), w.config, turnId, w.registry.turns[turnId].proposal.value, jobId))
  {
    var p := w.registry.turns[turnId].proposal.value;
    KeyLeadsToJob(w.hub, jobId);
    ExistingJobIsReported(StoreOf(w), w.config, turnId, p, jobId, offer);
    ExistingJobStaysTheOnly(StoreOf(w), w.config, turnId, p, jobId, offer, None);
    RetryWithoutPolicy(w, m, turnId, offer);
  }

  /** A turn names no Job although its Job exists. Sent again, its message records that very Job, or exactly the refusal that
      RefusalOf reads from the tables before; no Job is created, and a refusal changes no table but the turn's. */
  lemma RetryRecordsTheJobIff(clock: Time, config: Config, steps: seq<Step>, m: Message, turnId: Id, jobId: Id, offer: Offer)
    requires var w := Reach(clock, config, steps);
      WaitsForJob(w, m, turnId) && JobExistsFor(w, turnId, jobId) && w.hub.clock <= offer.now
    ensures var w := Reach(clock, config, steps);
      RetriedAs(w, RunAll(w, Retry(m, offer)), turnId, jobId,
        RefusalOf(StoreOf(w), w.config, turnId, w.registry.turns[turnId].proposal.value, jobId))
  {
    var w := Reach(clock, config, steps);
    ReachIsOk(clock, config, steps);
    if w.registry.turns[turnId].proposal.value.JobProposal? {
      RetryOfJob(w, m, turnId, jobId, offer);
    } else {
      RetryOfImprovement(w, m, turnId, jobId, offer);
    }
  }

  /** Wherever it fails on the way, scheduling a turn whose Job exists creates no second one. */
  lemma SchedulingAgainAddsNoJob(clock: Time, config: Config, steps: seq<Step>, c: string, jobId: Id, offer: Offer, fails: Option<nat>)
    requires var w := Reach(clock, config, steps); At(w, c, Scheduling) && JobExistsFor(w, w.active[c].turnId, jobId)
    ensures var (w, w') := (Reach(clock, config, steps), Next(Reach(clock, config, steps), Schedules(c, offer, fails)));
      w'.hub.hub.jobs.jobs.Keys == w.hub.hub.jobs.jobs.Keys
  {
    var w := Reach(clock, config, steps);
    ReachIsOk(clock, config, steps);
    if w.hub.clock <= offer.now {
      ScheduledTurnIs(w, c, offer, fails);
      KeyLeadsToJob(w.hub, jobId);
      var turnId := w.active[c].turnId;
      ExistingJobStaysTheOnly(StoreOf(w), w.config, turnId, w.registry.turns[turnId].proposal.value, jobId, offer, fails);
    } else {
      ScheduleStepIs(w, Schedules(c, offer, fails));
    }
  }

  // ---- A turn that never gets its Job ----

  lemma NamesItsJob(w: World, turnId: Id, jobId: Id)
    requires Inv(w) && BindingsOk(w) && JobExistsFor(w, turnId, jobId) && w.registry.turns[turnId].jobId.Some?
    requires w.registry.turns[turnId].proposal.value.ImprovementProposal?
    ensures jobId in w.bindings
  {
    var turn := w.registry.turns[turnId];
    assert TurnOk(w.hub.hub.jobs, turnId, turn) && TurnNamesBound(w, turnId);
    OneJobPerKey(w.hub, jobId, turn.jobId.value);
  }

  /** A self-improvement turn whose Job has ended and is bound to nothing. */
  ghost predicate Stranded(w: World, turnId: Id, jobId: Id) {
    JobExistsFor(w, turnId, jobId) && EndedUnbound(w, jobId) && w.registry.turns[turnId].proposal.value.ImprovementProposal?
  }

  lemma StrandedStays(w: World, more: seq<Step>, turnId: Id, jobId: Id)
    requires Inv(w) && Stranded(w, turnId, jobId)
    ensures Inv(RunAll(w, more)) && Stranded(RunAll(w, more), turnId, jobId)
  {
    var w' := RunAll(w, more);
    RunKeepsInv(w, more);
    RunKeepsUnbound(w, more, jobId);
    assert TurnExtends(w.registry.turns[turnId], w'.registry.turns[turnId]);
    JobStays(w.hub.hub.jobs, w'.hub.hub.jobs, turnId, w.registry.turns[turnId], jobId);
  }

  lemma StrandedNamesNoJob(w: World, turnId: Id, jobId: Id)
    requires Inv(w) && BindingsOk(w) && Stranded(w, turnId, jobId)
    ensures w.registry.turns[turnId].jobId.None?
  {
    if w.registry.turns[turnId].jobId.Some? { NamesItsJob(w, turnId, jobId); }
  }

  function StrandedCode(w: World, p: Proposal): string {
    if p.workspaceId != w.config.workspaceId then "SELF_IMPROVEMENT_WORKSPACE_REJECTED" else "SELF_IMPROVEMENT_JOB_REJECTED"
  }

  lemma StrandedRefusal(w: World, turnId: Id, jobId: Id)
    requires Stranded(w, turnId, jobId)
    ensures var p := w.registry.turns[turnId].proposal.value;
      RefusalOf(StoreOf(w), w.config, turnId, p, jobId) == Some(StrandedCode(w, p))
  {
  }

  lemma StrandedIsRefused(w: World, m: Message, turnId: Id, jobId: Id, offer: Offer)
    requires Inv(w) && Stranded(w, turnId, jobId) && WaitsForJob(w, m, turnId) && w.hub.clock <= offer.now
    ensures Told(w, RunAll(w, Retry(m, offer)), turnId, Rejected(StrandedCode(w, w.registry.turns[turnId].proposal.value)))
  {
    StrandedRefusal(w, turnId, jobId);
    RetryOfImprovement(w, m, turnId, jobId, offer);
  }

  /** The Job of a self-improvement turn has ended, and was never bound: whatever happens later, the turn never names that Job,
      and each time the message is sent again a refusal is recorded. */
  lemma StrandedForEver(
    clock: Time, config: Config, steps: seq<Step>, more: seq<Step>, m: Message, turnId: Id, jobId: Id, offer: Offer)
    requires Stranded(Reach(clock, config, steps), turnId, jobId)
    ensures var w := RunAll(Reach(clock, config, steps), more);
      && Stranded(w, turnId, jobId) && w.registry.turns[turnId].jobId.None?
      && (WaitsForJob(w, m, turnId) && w.hub.clock <= offer.now ==>
            Told(w, RunAll(w, Retry(m, offer)), turnId, Rejected(StrandedCode(w, w.registry.turns[turnId].proposal.value))))
  {
    var w := RunAll(Reach(clock, config, steps), more);
    ReachIsOk(clock, config, steps);
    ReachBinds(clock, config, steps);
    StrandedStays(Reach(clock, config, steps), more, turnId, jobId);
    RunKeepsBindings(Reach(clock, config, steps), more);
    StrandedNamesNoJob(w, turnId, jobId);
    if WaitsForJob(w, m, turnId) && w.hub.clock <= offer.now { StrandedIsRefused(w, m, turnId, jobId, offer); }
  }
}
