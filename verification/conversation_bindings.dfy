/** Over whole runs: which Jobs are bound to an improvement, and which Jobs self-improvement turns name. */
module ConversationBindings {
  import opened Wrappers
  import Jobs
  import Hub = HubRuns
  import opened Conversation
  import opened ImprovementJobs
  import opened ConversationScheduling
  import opened ConversationRuns

  // ---- Bindings are only added ----

  ghost predicate Kept(bindings: Bindings, bindings': Bindings) {
    forall j <- bindings :: j in bindings' && bindings'[j] == bindings[j]
  }

  /** No binding changes or goes; a Job that is bound newly exists, and if it did before it was one that may be bound. */
  ghost predicate BindsOnly(s: Store, s': Store) {
    && Kept(s.bindings, s'.bindings)
    && (forall j <- s'.bindings | j !in s.bindings ::
          j in s'.hub.hub.jobs.jobs && (j in s.hub.hub.jobs.jobs ==> Bindable(s.hub.hub.jobs.jobs[j])))
    && (OneJobEach(s.bindings) ==> OneJobEach(s'.bindings))
  }

  lemma RegisterBindsOnly(s: Store, s': Store, jobId: Id, job: Jobs.Job, b: Binding)
    requires Register(s.bindings, jobId, job, b).Ok? && s'.bindings == Register(s.bindings, jobId, job, b).value
    requires jobId in s'.hub.hub.jobs.jobs && (jobId in s.hub.hub.jobs.jobs ==> s.hub.hub.jobs.jobs[jobId] == job)
    ensures BindsOnly(s, s')
  {
  }

  /** The bindings after the first commits of a callback that binds and approves. */
  lemma BindAndApproveBinds(s: Store, jobId: Id, b: Binding, now: Time, n: nat)
    requires jobId in s.hub.hub.jobs.jobs && n <= |BindAndApprove(s, jobId, b, now).stores|
    ensures var s' := Last(s, BindAndApprove(s, jobId, b, now).stores[..n]);
      var registered := Register(s.bindings, jobId, s.hub.hub.jobs.jobs[jobId], b);
      s'.bindings == s.bindings || (registered.Ok? && s'.bindings == registered.value)
  {
  }

  lemma BindAndApproveBindsOnly(was: Store, s: Store, jobId: Id, b: Binding, now: Time, n: nat)
    requires was.bindings == s.bindings && s.hub.clock <= now
    requires jobId in s.hub.hub.jobs.jobs && n <= |BindAndApprove(s, jobId, b, now).stores|
    requires jobId in was.hub.hub.jobs.jobs ==> was.hub.hub.jobs.jobs[jobId] == s.hub.hub.jobs.jobs[jobId]
    ensures BindsOnly(was, Last(s, BindAndApprove(s, jobId, b, now).stores[..n]))
  {
    var s' := Last(s, BindAndApprove(s, jobId, b, now).stores[..n]);
    BindAndApproveBinds(s, jobId, b, now, n);
    BindAndApproveAddsNoJob(s, jobId, b, now, n);
    if s'.bindings != s.bindings {
      RegisterBindsOnly(was, s', jobId, s.hub.hub.jobs.jobs[jobId], b);
    }
  }

  lemma LastOfPrefix(s: Store, first: Store, rest: seq<Store>, n: nat)
    requires 0 < n <= |rest| + 1
    ensures Last(s, ([first] + rest)[..n]) == Last(first, rest[..n - 1])
  {
  }

  lemma NewImprovementBindsOnly(s: Store, request: Jobs.Request, b: Binding, offer: Offer, n: nat)
    requires Hub.Inv(s.hub) && s.hub.clock <= offer.now && Resolve(s.hub.hub.jobs, request).NewKey? && Creatable(request, offer)
    requires n <= |ScheduleImprovement(s, request, b, offer).stores|
    ensures BindsOnly(s, Last(s, ScheduleImprovement(s, request, b, offer).stores[..n]))
  {
    var stores := ScheduleImprovement(s, request, b, offer).stores;
    var (created, jobId) := (AfterHub(s, CreateStep(request, offer.runner.value, offer)), s.hub.hub.jobs.minted);
    if n > 0 && !offer.patchExists {
      NewJobIsTheJob(s, request, offer);
      assert Hub.JobsOk(s.hub);
      var rest := BindAndApprove(created, jobId, b, offer.now).stores;
      assert stores == [created] + rest;
      BindAndApproveBindsOnly(s, created, jobId, b, offer.now, n - 1);
      LastOfPrefix(s, created, rest, n);
    }
  }

  lemma ImprovementBindsOnly(s: Store, request: Jobs.Request, b: Binding, offer: Offer, n: nat)
    requires Hub.Inv(s.hub) && s.hub.clock <= offer.now && n <= |ScheduleImprovement(s, request, b, offer).stores|
    ensures BindsOnly(s, Last(s, ScheduleImprovement(s, request, b, offer).stores[..n]))
  {
    match Resolve(s.hub.hub.jobs, request)
    case DuplicateOf(jobId) => if jobId in s.hub.hub.jobs.jobs { BindAndApproveBindsOnly(s, s, jobId, b, offer.now, n); }
    case NewKey => if Creatable(request, offer) { NewImprovementBindsOnly(s, request, b, offer, n); }
    case OtherRequest =>
  }

  lemma EndsAfter(s: Store, o: Outcome, fails: Option<nat>, code: string) returns (n: nat)
    ensures n <= |o.stores| && Ends(s, o, fails, code).0 == Last(s, o.stores[..n])
  {
    n := if fails.Some? && fails.value < |o.stores| then fails.value else |o.stores|;
    assert o.stores[..|o.stores|] == o.stores;
  }

  lemma ScheduleBindsOnly(s: Store, config: Config, turnId: Id, p: Proposal, offer: Offer, fails: Option<nat>)
    requires Hub.Inv(s.hub) && s.hub.clock <= offer.now
    ensures BindsOnly(s, Schedule(s, config, turnId, p, offer, fails).0)
  {
    if p.ImprovementProposal? && p.workspaceId == config.workspaceId {
      var (request, b) := (RequestOf(turnId, p), BindingOf(turnId, p));
      var n := EndsAfter(s, ScheduleImprovement(s, request, b, offer), fails, "SELF_IMPROVEMENT_JOB_REJECTED");
      ImprovementBindsOnly(s, request, b, offer, n);
    }
  }

  lemma ScheduleStepBindsOnly(w: World, s: Step)
    requires Inv(w) && s.Schedules?
    ensures BindsOnly(StoreOf(w), StoreOf(Next(w, s)))
  {
    ScheduleStepIs(w, s);
    if At(w, s.conversation, Scheduling) && w.hub.clock <= s.offer.now {
      assert HandlerOk(w, s.conversation, w.active[s.conversation]);
      ScheduleTurnIs(w, s.conversation, s.offer, s.fails);
      var turnId := w.active[s.conversation].turnId;
      ScheduleBindsOnly(StoreOf(w), w.config, turnId, w.registry.turns[turnId].proposal.value, s.offer, s.fails);
    }
  }

  lemma RegisterStepBindsOnly(w: World, jobId: Id, b: Binding)
    ensures BindsOnly(StoreOf(w), StoreOf(RegisterJob(w, jobId, b)))
  {
    if jobId in w.hub.hub.jobs.jobs && Register(w.bindings, jobId, w.hub.hub.jobs.jobs[jobId], b).Ok? {
      RegisterBindsOnly(StoreOf(w), StoreOf(RegisterJob(w, jobId, b)), jobId, w.hub.hub.jobs.jobs[jobId], b);
    }
  }

  lemma ApproveBindsNothing(w: World, s: Step)
    requires s.Approves?
    ensures Next(w, s).bindings == w.bindings
  {
    ApproveStepIs(w, s);
  }

  lemma SubmissionBindsNothing(w: World, s: Step)
    requires !s.Schedules? && !s.Registers? && !s.Approves?
    ensures Next(w, s).bindings == w.bindings
  {
  }

  lemma StepBindsOnly(w: World, s: Step)
    requires Inv(w)
    ensures BindsOnly(StoreOf(w), StoreOf(Next(w, s)))
  {
    if s.Schedules? {
      ScheduleStepBindsOnly(w, s);
    } else if s.Registers? {
      RegisterStepBindsOnly(w, s.jobId, s.binding);
    } else if s.Approves? {
      ApproveBindsNothing(w, s);
    } else {
      SubmissionBindsNothing(w, s);
    }
  }

  // ---- Who names a Job ----

  /** A self-improvement turn may name the Job: it is bound to the turn's improvement and metadata. */
  ghost predicate MayName(bindings: Bindings, turnId: Id, turn: Turn, jobId: Id) {
    turn.proposal.Some? && turn.proposal.value.ImprovementProposal? ==>
      jobId in bindings && bindings[jobId] == BindingOf(turnId, turn.proposal.value)
  }

  ghost predicate TurnNamesBound(w: World, id: Id) {
    id in w.registry.turns && w.registry.turns[id].jobId.Some? ==>
      MayName(w.bindings, id, w.registry.turns[id], w.registry.turns[id].jobId.value)
  }

  ghost predicate HandlerNamesBound(w: World, c: string) {
    c in w.active && JobAt(w.active[c].at).Some? && w.active[c].turnId in w.registry.turns ==>
      MayName(w.bindings, w.active[c].turnId, w.registry.turns[w.active[c].turnId], JobAt(w.active[c].at).value)
  }

  ghost predicate NamedAreBound(w: World) {
    (forall id <- w.registry.turns :: TurnNamesBound(w, id)) && (forall c <- w.active :: HandlerNamesBound(w, c))
  }

  /** No turn gets a Job by this. */
  ghost predicate NamesNothing(w: World, w': World) {
    forall id <- w'.registry.turns | w'.registry.turns[id].jobId.Some? ::
      id in w.registry.turns && w.registry.turns[id].jobId == w'.registry.turns[id].jobId
  }

  /** No submission gets to a Job by this. */
  ghost predicate ReportsNothing(w: World, w': World) {
    forall c <- w'.active | JobAt(w'.active[c].at).Some? :: c in w.active && w.active[c] == w'.active[c]
  }

  lemma SubmitNamesNothing(w: World, m: Message)
    ensures NamesNothing(w, Submit(w, m)) && ReportsNothing(w, Submit(w, m))
  {
  }

  lemma ThinkNamesNothing(w: World, c: string)
    ensures NamesNothing(w, Next(w, Thinks(c))) && ReportsNothing(w, Next(w, Thinks(c)))
  {
  }

  lemma UpdateNamesNothing(w: World, c: string, turn': Turn, at: Option<Place>)
    requires c in w.active && w.active[c].turnId in w.registry.turns && w.registry.turns[w.active[c].turnId].jobId == turn'.jobId
    requires at.Some? ==> JobAt(at.value).None?
    ensures var w' := Update(w, c, Ok(Put(w.registry, w.active[c].turnId, turn')), at); NamesNothing(w, w') && ReportsNothing(w, w')
  {
  }

  lemma ReceiveNamesNothing(w: World, c: string, answer: Answer)
    requires Local(w) && c in w.active && w.active[c].at.Awaiting?
    ensures NamesNothing(w, Receive(w, c, answer)) && ReportsNothing(w, Receive(w, c, answer))
  {
    var ending := EndOf(answer, w.active[c].at.toolCalls);
    if ending.Some? {
      AwaitingIsThinking(w, c);
      GoOnIs(w, c, ending.value);
      UpdateNamesNothing(w, c, Concluded(w.registry.turns[w.active[c].turnId], ending.value),
        if ending.value.Proposed? then Some(Scheduling) else None);
    }
  }

  lemma AskNamesNothing(w: World, c: string)
    ensures NamesNothing(w, Next(w, Asks(c))) && ReportsNothing(w, Next(w, Asks(c)))
  {
  }

  lemma RestNamesNothing(w: World, s: Step)
    requires s.Throws? || s.Restarts? || s.Registers? || s.OnHub?
    ensures NamesNothing(w, Next(w, s)) && ReportsNothing(w, Next(w, s))
  {
  }

  lemma OthersNameAndReportNothing(w: World, s: Step)
    requires Local(w) && !s.Records? && !s.Schedules? && !s.Approves?
    ensures NamesNothing(w, Next(w, s)) && ReportsNothing(w, Next(w, s))
  {
    match s
    case Submits(m) => SubmitNamesNothing(w, m);
    case Thinks(c) => ThinkNamesNothing(w, c);
    case Asks(c) => AskNamesNothing(w, c);
    case Receives(c, answer) => if c in w.active && w.active[c].at.Awaiting? { ReceiveNamesNothing(w, c, answer); }
    case _ => RestNamesNothing(w, s);
  }

  lemma CallbackNamesNothing(w: World, s: Step)
    requires s.Schedules? || s.Approves?
    ensures Next(w, s).registry == w.registry && forall d | d != s.conversation && d in Next(w, s).active ::
      d in w.active && Next(w, s).active[d] == w.active[d]
  {
    if s.Schedules? { ScheduleStepIs(w, s); } else { ApproveStepIs(w, s); }
  }

  lemma RecordReportsNothing(w: World, c: string)
    ensures ReportsNothing(w, Next(w, Records(c)))
  {
  }

  /** Only the record of a scheduling result gives a turn a Job. */
  lemma OthersNameNothing(w: World, s: Step, id: Id)
    requires Local(w) && !s.Records? && id in Next(w, s).registry.turns && Next(w, s).registry.turns[id].jobId.Some?
    ensures id in w.registry.turns && w.registry.turns[id].jobId == Next(w, s).registry.turns[id].jobId
    ensures w.registry.turns[id].proposal.Some?
  {
    if s.Schedules? || s.Approves? { CallbackNamesNothing(w, s); } else { OthersNameAndReportNothing(w, s); }
    assert TurnOk(w.hub.hub.jobs, id, w.registry.turns[id]);
  }

  /** Only a callback brings a submission to a Job. */
  lemma OthersReportNothing(w: World, s: Step, c: string)
    requires Local(w) && !s.Schedules? && !s.Approves? && c in Next(w, s).active && JobAt(Next(w, s).active[c].at).Some?
    ensures c in w.active && w.active[c] == Next(w, s).active[c]
    ensures w.active[c].turnId in w.registry.turns && Schedulable(w.registry.turns[w.active[c].turnId])
  {
    if s.Records? { RecordReportsNothing(w, s.conversation); } else { OthersNameAndReportNothing(w, s); }
    assert HandlerOk(w, c, w.active[c]);
  }

  lemma NamesStay(b: Bindings, b': Bindings, turnId: Id, turn: Turn, turn': Turn, jobId: Id)
    requires MayName(b, turnId, turn, jobId) && Kept(b, b') && TurnExtends(turn, turn') && turn.proposal.Some?
    ensures MayName(b', turnId, turn', jobId)
  {
  }

  lemma TurnStaysBound(w: World, s: Step, id: Id)
    requires Local(w) && NamedAreBound(w) && !s.Records?
    requires Kept(w.bindings, Next(w, s).bindings) && TurnsExtend(w.registry, Next(w, s).registry)
    ensures TurnNamesBound(Next(w, s), id)
  {
    var w' := Next(w, s);
    if id in w'.registry.turns && w'.registry.turns[id].jobId.Some? {
      OthersNameNothing(w, s, id);
      assert TurnNamesBound(w, id);
      NamesStay(w.bindings, w'.bindings, id, w.registry.turns[id], w'.registry.turns[id], w.registry.turns[id].jobId.value);
    }
  }

  lemma HandlerStaysBound(w: World, s: Step, c: string)
    requires Local(w) && NamedAreBound(w) && !s.Schedules? && !s.Approves?
    requires Kept(w.bindings, Next(w, s).bindings) && TurnsExtend(w.registry, Next(w, s).registry)
    ensures HandlerNamesBound(Next(w, s), c)
  {
    var w' := Next(w, s);
    if c in w'.active && JobAt(w'.active[c].at).Some? {
      OthersReportNothing(w, s, c);
      assert HandlerNamesBound(w, c);
      var turnId := w.active[c].turnId;
      NamesStay(w.bindings, w'.bindings, turnId, w.registry.turns[turnId], w'.registry.turns[turnId], JobAt(w.active[c].at).value);
    }
  }

  lemma RecordedNamesBound(w: World, c: string, id: Id)
    requires Local(w) && NamedAreBound(w) && c in w.active && w.active[c].at.Recording?
    ensures TurnNamesBound(Next(w, Records(c)), id)
  {
    RecordingIsSchedulable(w, c);
    RecordIs(w, c);
    assert HandlerNamesBound(w, c) && (id in w.registry.turns ==> TurnNamesBound(w, id));
  }

  lemma RecordNamesBound(w: World, c: string, id: Id)
    requires Local(w) && NamedAreBound(w)
    ensures TurnNamesBound(Next(w, Records(c)), id)
  {
    if c in w.active && w.active[c].at.Recording? {
      RecordedNamesBound(w, c, id);
    } else if id in w.registry.turns {
      assert TurnNamesBound(w, id);
    }
  }

  lemma BindAndApproveReportsBound(s: Store, jobId: Id, b: Binding, now: Time)
    requires jobId in s.hub.hub.jobs.jobs
    ensures var o := BindAndApprove(s, jobId, b, now);
      o.result.Created? ==> o.result.jobId == jobId && jobId in Last(s, o.stores).bindings && Last(s, o.stores).bindings[jobId] == b
  {
  }

  /** A self-improvement Job is reported only once it is bound. */
  lemma ReportedIsBound(s: Store, config: Config, turnId: Id, p: Proposal, offer: Offer, fails: Option<nat>)
    ensures var (s', result) := Schedule(s, config, turnId, p, offer, fails);
      p.ImprovementProposal? && result.Created? ==>
        result.jobId in s'.bindings && s'.bindings[result.jobId] == BindingOf(turnId, p)
  {
    if p.ImprovementProposal? {
      var (request, b) := (RequestOf(turnId, p), BindingOf(turnId, p));
      match Resolve(s.hub.hub.jobs, request)
      case DuplicateOf(jobId) => if jobId in s.hub.hub.jobs.jobs { BindAndApproveReportsBound(s, jobId, b, offer.now); }
      case NewKey =>
        if Creatable(request, offer) {
          var (created, jobId) := (AfterHub(s, CreateStep(request, offer.runner.value, offer)), s.hub.hub.jobs.minted);
          if jobId in created.hub.hub.jobs.jobs { BindAndApproveReportsBound(created, jobId, b, offer.now); }
        }
      case OtherRequest =>
    }
  }

  lemma OtherHandlerStaysBound(w: World, w': World, c: string, d: string)
    requires NamedAreBound(w) && w'.registry == w.registry && Kept(w.bindings, w'.bindings)
    requires c != d && (d in w'.active ==> d in w.active && w'.active[d] == w.active[d])
    ensures HandlerNamesBound(w', d)
  {
    if d in w.active { assert HandlerNamesBound(w, d); }
  }

  lemma ScheduleNamesBound(w: World, c: string, offer: Offer, fails: Option<nat>)
    requires Local(w) && NamedAreBound(w) && At(w, c, Scheduling)
    ensures HandlerNamesBound(ScheduleTurn(w, c, offer, fails), c)
  {
    assert HandlerOk(w, c, w.active[c]);
    ScheduleTurnIs(w, c, offer, fails);
    var turnId := w.active[c].turnId;
    var p := w.registry.turns[turnId].proposal.value;
    var (s, result) := Schedule(StoreOf(w), w.config, turnId, p, offer, fails);
    PlaceAfterIs(s, w.config, p, result);
    ReportedIsBound(StoreOf(w), w.config, turnId, p, offer, fails);
  }

  lemma ApproveNamesBound(w: World, c: string, now: Time, fails: Option<nat>)
    requires Local(w) && c in w.active && w.active[c].at.Approving?
    ensures HandlerNamesBound(ApproveTurn(w, c, now, fails), c)
  {
    assert HandlerOk(w, c, w.active[c]);
  }

  lemma ScheduleStepNamesBound(w: World, s: Step)
    requires Local(w) && NamedAreBound(w) && s.Schedules?
    ensures HandlerNamesBound(Next(w, s), s.conversation)
  {
    ScheduleStepIs(w, s);
    if At(w, s.conversation, Scheduling) && w.hub.clock <= s.offer.now {
      ScheduleNamesBound(w, s.conversation, s.offer, s.fails);
    } else if s.conversation in w.active {
      assert HandlerNamesBound(w, s.conversation);
    }
  }

  lemma ApproveStepNamesBound(w: World, s: Step)
    requires Local(w) && NamedAreBound(w) && s.Approves?
    ensures HandlerNamesBound(Next(w, s), s.conversation)
  {
    ApproveStepIs(w, s);
    if s.conversation in w.active {
      assert HandlerNamesBound(w, s.conversation);
      if w.active[s.conversation].at.Approving? && w.hub.clock <= s.now { ApproveNamesBound(w, s.conversation, s.now, s.fails); }
    }
  }

  lemma CallbackNamesBound(w: World, s: Step, d: string)
    requires Local(w) && NamedAreBound(w) && (s.Schedules? || s.Approves?) && Kept(w.bindings, Next(w, s).bindings)
    ensures HandlerNamesBound(Next(w, s), d)
  {
    if d != s.conversation {
      CallbackNamesNothing(w, s);
      OtherHandlerStaysBound(w, Next(w, s), s.conversation, d);
    } else if s.Schedules? {
      ScheduleStepNamesBound(w, s);
    } else {
      ApproveStepNamesBound(w, s);
    }
  }

  lemma NextNamesBound(w: World, s: Step)
    requires Local(w) && NamedAreBound(w)
    requires Kept(w.bindings, Next(w, s).bindings) && TurnsExtend(w.registry, Next(w, s).registry)
    ensures NamedAreBound(Next(w, s))
  {
    forall id <- Next(w, s).registry.turns ensures TurnNamesBound(Next(w, s), id) {
      if s.Records? { RecordNamesBound(w, s.conversation, id); } else { TurnStaysBound(w, s, id); }
    }
    forall c <- Next(w, s).active ensures HandlerNamesBound(Next(w, s), c) {
      if s.Schedules? || s.Approves? { CallbackNamesBound(w, s, c); } else { HandlerStaysBound(w, s, c); }
    }
  }

  // ---- Runs ----

  ghost predicate BindingsOk(w: World) {
    w.bindings.Keys <= w.hub.hub.jobs.jobs.Keys && OneJobEach(w.bindings) && NamedAreBound(w)
  }

  lemma KeysStay(w: World, w': World)
    requires w.bindings.Keys <= w.hub.hub.jobs.jobs.Keys && OneJobEach(w.bindings)
    requires BindsOnly(StoreOf(w), StoreOf(w')) && Hub.TableExtends(w.hub.hub.jobs, w'.hub.hub.jobs)
    ensures w'.bindings.Keys <= w'.hub.hub.jobs.jobs.Keys && OneJobEach(w'.bindings)
  {
  }

  lemma NextKeepsBindings(w: World, s: Step)
    requires Inv(w) && BindingsOk(w)
    ensures BindingsOk(Next(w, s)) && BindsOnly(StoreOf(w), StoreOf(Next(w, s)))
  {
    NextIsGood(w, s);
    StepBindsOnly(w, s);
    NextNamesBound(w, s);
    KeysStay(w, Next(w, s));
  }

  lemma {:induction false} RunKeepsBindings(w: World, steps: seq<Step>)
    requires Inv(w) && BindingsOk(w)
    ensures BindingsOk(RunAll(w, steps)) && Kept(w.bindings, RunAll(w, steps).bindings)
    decreases |steps|
  {
    if steps != [] {
      NextIsGood(w, steps[0]);
      NextKeepsBindings(w, steps[0]);
      RunKeepsBindings(Next(w, steps[0]), steps[1..]);
    }
  }

  predicate EndedUnbound(w: World, jobId: Id) {
    jobId in w.hub.hub.jobs.jobs && Jobs.Terminal(w.hub.hub.jobs.jobs[jobId].status) && jobId !in w.bindings
  }

  lemma NextKeepsUnbound(w: World, s: Step, jobId: Id)
    requires Inv(w) && EndedUnbound(w, jobId)
    ensures EndedUnbound(Next(w, s), jobId)
  {
    NextIsGood(w, s);
    StepBindsOnly(w, s);
    assert Hub.JobExtends(w.hub.hub.jobs, w.hub.hub.jobs.jobs[jobId], Next(w, s).hub.hub.jobs.jobs[jobId]);
  }

  lemma {:induction false} RunKeepsUnbound(w: World, steps: seq<Step>, jobId: Id)
    requires Inv(w) && EndedUnbound(w, jobId)
    ensures EndedUnbound(RunAll(w, steps), jobId)
    decreases |steps|
  {
    if steps != [] {
      NextIsGood(w, steps[0]);
      NextKeepsUnbound(w, steps[0], jobId);
      RunKeepsUnbound(Next(w, steps[0]), steps[1..], jobId);
    }
  }
}
