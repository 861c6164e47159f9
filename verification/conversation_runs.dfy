/**
 Runs of the conversation orchestrator next to the Hub. Submissions of one conversation
 are queued one behind the other; those of different conversations interleave at every
 await, and so does everything else the Hub does with Jobs.

 A step either leaves the Hub alone, or takes it through steps of its own.
 */
module ConversationRuns {
  import opened Wrappers
  import Jobs
  import Hub = HubRuns
  import opened Conversation
  import opened ImprovementJobs
  import opened ConversationScheduling

  /** Where a submission stands. The number counts the tool calls that were answered. */
  datatype Place =
    | Starting
    | Asking(toolCalls: nat)
    | Awaiting(toolCalls: nat)
    | Scheduling
    /** The Job exists, and the submission waits for the event log before it approves the Job by policy. */
    | Approving(jobId: Id)
    | Recording(result: Scheduled)

  datatype Handler = Handler(turnId: Id, at: Place)

  /** `calls` counts the model calls made for a turn; `active` holds the running submission of a conversation. */
  datatype World = World(
    hub: Hub.World, registry: Registry, active: map<string, Handler>, calls: map<Id, nat>,
    bindings: Bindings, appended: seq<Id>, config: Config)

  datatype Step =
    | Submits(message: Message)
    | Thinks(conversation: string)
    | Asks(conversation: string)
    | Receives(conversation: string, answer: Answer)
    /** `fails`: the disk fails after so many commits. */
    | Schedules(conversation: string, offer: Offer, fails: Option<nat>)
    | Approves(conversation: string, now: Time, fails: Option<nat>)
    | Records(conversation: string)
    /** The submission throws where it stands. */
    | Throws(conversation: string)
    /** The Hub dies and opens its registries again, maybe under another configuration. */
    | Restarts(config: Config)
    /** The Owner binds a Job to an improvement. */
    | Registers(jobId: Id, binding: Binding)
    | OnHub(step: Hub.Step)

  function StoreOf(w: World): Store {
    Store(w.hub, w.bindings, w.appended)
  }

  function WithStore(w: World, s: Store): World {
    w.(hub := s.hub, bindings := s.bindings, appended := s.appended)
  }

  predicate At(w: World, c: string, at: Place) {
    c in w.active && w.active[c].at == at
  }

  function Go(w: World, c: string, at: Place): World
    requires c in w.active
  {
    w.(active := w.active[c := w.active[c].(at := at)])
  }

  function End(w: World, c: string): World {
    w.(active := w.active - {c})
  }

  /** The update of the registry, after which the submission goes on; when it throws, the submission ends. */
  function Update(w: World, c: string, update: Result<Registry, Conversation.Failure>, at: Option<Place>): World
    requires c in w.active
  {
    match update
    case Err(_) => End(w, c)
    case Ok(r) => if at.None? then End(w.(registry := r), c) else Go(w.(registry := r), c, at.value)
  }

  predicate Schedulable(t: Turn) {
    t.status == JobProposed && t.jobId.None? && t.proposal.Some?
  }

  function Submit(w: World, m: Message): World {
    if m.conversationId in w.active then w
    else
      var (r, accepted) := Accept(w.registry, m);
      var w' := w.(registry := r);
      match accepted
      case NewTurn(turnId) => w'.(active := w.active[m.conversationId := Handler(turnId, Starting)], calls := w.calls[turnId := 0])
      case Duplicate(turnId) =>
        if Schedulable(r.turns[turnId]) then w'.(active := w.active[m.conversationId := Handler(turnId, Scheduling)]) else w'
      case Conflict => w'
  }

  function Receive(w: World, c: string, answer: Answer): World
    requires c in w.active && w.active[c].at.Awaiting?
  {
    GoOn(w, c, EndOf(answer, w.active[c].at.toolCalls))
  }

  /** The dialogue ends as given, or goes on with the result of a tool call. */
  function GoOn(w: World, c: string, ending: Option<Ending>): World
    requires c in w.active && w.active[c].at.Awaiting?
  {
    var turnId := w.active[c].turnId;
    match ending
    case None => Go(w, c, Asking(w.active[c].at.toolCalls + 1))
    case Some(GaveUp(code)) => Update(w, c, Fail(w.registry, turnId, code), None)
    case Some(Answered(reply)) => Update(w, c, CompleteReply(w.registry, turnId, reply), None)
    case Some(Proposed(reply, p)) => Update(w, c, RecordProposal(w.registry, turnId, reply, p), Some(Scheduling))
  }

  /** Where a submission goes on after its callback has reported, or is about to wait for the event log. */
  function PlaceAfter(s: Store, config: Config, p: Proposal, result: Scheduled): Place {
    if p.JobProposal? && result.Created? && result.jobId in s.hub.hub.jobs.jobs && NeedsPolicy(config, s.hub.hub.jobs.jobs[result.jobId])
    then Approving(result.jobId) else Recording(result)
  }

  function ScheduleTurn(w: World, c: string, offer: Offer, fails: Option<nat>): World
    requires c in w.active
  {
    var turnId := w.active[c].turnId;
    if turnId !in w.registry.turns || w.registry.turns[turnId].proposal.None? then End(w, c)
    else
      var p := w.registry.turns[turnId].proposal.value;
      var (s, result) := Schedule(StoreOf(w), w.config, turnId, p, offer, fails);
      Go(WithStore(w, s), c, PlaceAfter(s, w.config, p, result))
  }

  function ApproveTurn(w: World, c: string, now: Time, fails: Option<nat>): World
    requires c in w.active && w.active[c].at.Approving?
  {
    var (s, result) := FinishPolicy(StoreOf(w), w.active[c].at.jobId, now, fails);
    Go(WithStore(w, s), c, Recording(result))
  }

  /** The Owner's own request for a self-improvement Job ends in the same registration. */
  function RegisterJob(w: World, jobId: Id, b: Binding): World {
    if jobId !in w.hub.hub.jobs.jobs then w
    else match Register(w.bindings, jobId, w.hub.hub.jobs.jobs[jobId], b)
      case Ok(bindings) => w.(bindings := bindings)
      case Err(_) => w
  }

  function Next(w: World, s: Step): World {
    match s
    case Submits(m) => Submit(w, m)
    case Thinks(c) =>
      if !At(w, c, Starting) then w else Update(w, c, MarkThinking(w.registry, w.active[c].turnId), Some(Asking(0)))
    case Asks(c) =>
      if c !in w.active || !w.active[c].at.Asking? then w
      else
        var turnId := w.active[c].turnId;
        Go(w, c, Awaiting(w.active[c].at.toolCalls)).(calls := w.calls[turnId := (if turnId in w.calls then w.calls[turnId] else 0) + 1])
    case Receives(c, answer) => if c !in w.active || !w.active[c].at.Awaiting? then w else Receive(w, c, answer)
    case Schedules(c, offer, fails) =>
      if !At(w, c, Scheduling) || offer.now < w.hub.clock then w else ScheduleTurn(w, c, offer, fails)
    case Approves(c, now, fails) =>
      if c !in w.active || !w.active[c].at.Approving? || now < w.hub.clock then w else ApproveTurn(w, c, now, fails)
    case Records(c) =>
      if c !in w.active || !w.active[c].at.Recording? then w
      else Update(w, c, RecordSchedulingResult(w.registry, w.active[c].turnId, w.active[c].at.result), None)
    case Throws(c) => End(w, c)
    case Restarts(config) => w.(registry := Repair(w.registry), active := map[], config := config)
    case Registers(jobId, b) => RegisterJob(w, jobId, b)
    case OnHub(step) => w.(hub := Hub.Next(w.hub, step))
  }

  function RunAll(w: World, steps: seq<Step>): World
    decreases |steps|
  {
    if steps == [] then w else RunAll(Next(w, steps[0]), steps[1..])
  }

  function Fresh(clock: Time, config: Config): World {
    World(Hub.Fresh(clock), Registry(map[], map[], 0), map[], map[], map[], [], config)
  }

  // ---- The invariant ----

  /** The registry and its unique index. */
  ghost predicate IndexOk(r: Registry) {
    && (forall id <- r.turns :: id < r.drawn && KeyOf(r.turns[id].message) in r.byMessage && r.byMessage[KeyOf(r.turns[id].message)] == id)
    && (forall k <- r.byMessage :: r.byMessage[k] in r.turns && KeyOf(r.turns[r.byMessage[k]].message) == k)
  }

  /** The Job is the one of this turn's id, for this turn's proposal. */
  ghost predicate IsJobOf(t: Jobs.Table, turnId: Id, turn: Turn, jobId: Id) {
    turn.proposal.Some? && jobId in t.jobs && t.jobs[jobId].request == RequestOf(turnId, turn.proposal.value)
  }

  /** The proposal is for a Job of a sandboxed tool, which policy may approve. */
  predicate IsSandboxed(turn: Turn) {
    turn.proposal.Some? && turn.proposal.value.JobProposal? && turn.proposal.value.tool != Jobs.Agent
  }

  ghost predicate TurnOk(t: Jobs.Table, turnId: Id, turn: Turn) {
    && (turn.proposal.Some? ==> turn.status == JobProposed)
    && (turn.jobId.Some? ==> IsJobOf(t, turnId, turn, turn.jobId.value))
  }

  /** How many calls a turn has made, as its status and its running submission tell. */
  ghost predicate CallsOk(calls: map<Id, nat>, turnId: Id, turn: Turn) {
    turnId in calls && calls[turnId] <= MAX_TOOL_CALLS_PER_TURN + 1 && (turn.status == Queued ==> calls[turnId] == 0)
  }

  ghost predicate HandlerOk(w: World, c: string, h: Handler) {
    && h.turnId in w.registry.turns && w.registry.turns[h.turnId].message.conversationId == c && h.turnId in w.calls
    && var (turn, calls) := (w.registry.turns[h.turnId], w.calls[h.turnId]);
       match h.at
       case Starting => turn.status == Queued && calls == 0
       case Asking(k) => turn.status == Thinking && calls == k <= MAX_TOOL_CALLS_PER_TURN
       case Awaiting(k) => turn.status == Thinking && calls == k + 1 && k <= MAX_TOOL_CALLS_PER_TURN
       case Scheduling => Schedulable(turn)
       case Approving(jobId) => Schedulable(turn) && IsSandboxed(turn) && IsJobOf(w.hub.hub.jobs, h.turnId, turn, jobId)
       case Recording(result) => Schedulable(turn) && (result.Created? ==> IsJobOf(w.hub.hub.jobs, h.turnId, turn, result.jobId))
  }

  ghost predicate TurnsOk(t: Jobs.Table, r: Registry, calls: map<Id, nat>) {
    IndexOk(r) && forall id <- r.turns :: TurnOk(t, id, r.turns[id]) && CallsOk(calls, id, r.turns[id])
  }

  ghost predicate Local(w: World) {
    TurnsOk(w.hub.hub.jobs, w.registry, w.calls) && forall c <- w.active :: HandlerOk(w, c, w.active[c])
  }

  ghost predicate Inv(w: World) {
    Hub.Inv(w.hub) && Local(w)
  }

  /** A turn stays for its message, keeps its proposal, and keeps its Job once it has one. */
  ghost predicate TurnExtends(turn: Turn, turn': Turn) {
    && turn'.message == turn.message
    && (turn.proposal.Some? ==> turn'.proposal == turn.proposal)
    && (turn.jobId.Some? ==> turn'.jobId == turn.jobId)
  }

  ghost predicate TurnsExtend(r: Registry, r': Registry) {
    forall id <- r.turns :: id in r'.turns && TurnExtends(r.turns[id], r'.turns[id])
  }

  ghost predicate Extends(w: World, w': World) {
    TurnsExtend(w.registry, w'.registry) && Hub.TableExtends(w.hub.hub.jobs, w'.hub.hub.jobs)
  }

  /** A step that leaves the Hub alone. */
  ghost predicate GoodHere(w: World, w': World) {
    w'.hub == w.hub && Local(w') && TurnsExtend(w.registry, w'.registry)
  }

  // ---- Each kind of step ----

  lemma EndIsGood(w: World, c: string)
    requires Local(w)
    ensures GoodHere(w, End(w, c))
  {
    forall d <- End(w, c).active ensures HandlerOk(End(w, c), d, End(w, c).active[d]) {
      assert HandlerOk(w, d, w.active[d]);
    }
  }

  lemma OthersStay(w: World, c: string, at: Place, d: string)
    requires c in w.active && d in w.active && d != c && HandlerOk(w, d, w.active[d])
    ensures HandlerOk(Go(w, c, at), d, Go(w, c, at).active[d])
  {
  }

  /** The submission goes on without touching the tables. */
  lemma GoIsGood(w: World, c: string, at: Place)
    requires Local(w) && c in w.active && HandlerOk(w, c, Handler(w.active[c].turnId, at))
    ensures GoodHere(w, Go(w, c, at))
  {
    var w' := Go(w, c, at);
    forall d <- w'.active ensures HandlerOk(w', d, w'.active[d]) {
      if d != c { OthersStay(w, c, at, d); }
    }
  }

  /** One turn is rewritten, under the submission of its conversation. */
  ghost predicate Rewrites(w: World, c: string, turn': Turn) {
    && c in w.active && w.active[c].turnId in w.registry.turns
    && var (turnId, turn) := (w.active[c].turnId, w.registry.turns[w.active[c].turnId]);
       TurnExtends(turn, turn') && TurnOk(w.hub.hub.jobs, turnId, turn') && CallsOk(w.calls, turnId, turn')
  }

  function Rewritten(w: World, c: string, turn': Turn): World
    requires c in w.active
  {
    w.(registry := Put(w.registry, w.active[c].turnId, turn'))
  }

  lemma OthersKeepTheirTurn(w: World, c: string, turn': Turn, d: string)
    requires Local(w) && Rewrites(w, c, turn') && d in w.active && d != c
    ensures HandlerOk(Rewritten(w, c, turn'), d, w.active[d])
  {
    assert HandlerOk(w, d, w.active[d]) && HandlerOk(w, c, w.active[c]);
  }

  lemma PutKeepsTurns(t: Jobs.Table, r: Registry, calls: map<Id, nat>, turnId: Id, turn': Turn)
    requires TurnsOk(t, r, calls) && turnId in r.turns && TurnExtends(r.turns[turnId], turn')
    requires TurnOk(t, turnId, turn') && CallsOk(calls, turnId, turn')
    ensures TurnsOk(t, Put(r, turnId, turn'), calls) && TurnsExtend(r, Put(r, turnId, turn'))
  {
  }

  lemma RewriteKeepsTurns(w: World, c: string, turn': Turn)
    requires Local(w) && Rewrites(w, c, turn')
    ensures TurnsOk(w.hub.hub.jobs, Rewritten(w, c, turn').registry, w.calls)
    ensures TurnsExtend(w.registry, Rewritten(w, c, turn').registry)
  {
    PutKeepsTurns(w.hub.hub.jobs, w.registry, w.calls, w.active[c].turnId, turn');
  }

  /** The submission goes on, or ends, after rewriting its turn. */
  lemma RewriteIsGood(w: World, c: string, turn': Turn, at: Option<Place>)
    requires Local(w) && Rewrites(w, c, turn')
    requires at.Some? ==> HandlerOk(Rewritten(w, c, turn'), c, Handler(w.active[c].turnId, at.value))
    ensures GoodHere(w, Update(w, c, Ok(Put(w.registry, w.active[c].turnId, turn')), at))
  {
    RewriteKeepsTurns(w, c, turn');
    var w' := Update(w, c, Ok(Put(w.registry, w.active[c].turnId, turn')), at);
    forall d <- w'.active ensures HandlerOk(w', d, w'.active[d]) {
      if d != c {
        OthersKeepTheirTurn(w, c, turn', d);
      }
    }
  }

  lemma NewTurnKeepsIndex(r: Registry, m: Message)
    requires IndexOk(r) && KeyOf(m) !in r.byMessage
    ensures IndexOk(Accept(r, m).0) && TurnsExtend(r, Accept(r, m).0) && r.drawn !in r.turns
  {
  }

  lemma NewTurnKeepsTurns(t: Jobs.Table, r: Registry, calls: map<Id, nat>, m: Message)
    requires TurnsOk(t, r, calls) && KeyOf(m) !in r.byMessage
    ensures var r' := Accept(r, m).0;
      TurnsOk(t, r', calls[r.drawn := 0]) && TurnsExtend(r, r') && r.drawn !in r.turns
  {
    var r' := Accept(r, m).0;
    NewTurnKeepsIndex(r, m);
    forall id <- r'.turns ensures TurnOk(t, id, r'.turns[id]) && CallsOk(calls[r.drawn := 0], id, r'.turns[id]) {
      if id != r.drawn { assert TurnOk(t, id, r.turns[id]) && CallsOk(calls, id, r.turns[id]); }
    }
  }

  lemma NewTurnLeavesHandlers(w: World, m: Message, d: string)
    requires Local(w) && KeyOf(m) !in w.registry.byMessage && d in w.active
    ensures HandlerOk(w.(registry := Accept(w.registry, m).0, calls := w.calls[w.registry.drawn := 0]), d, w.active[d])
  {
    assert HandlerOk(w, d, w.active[d]);
  }

  lemma SubmitNewIsGood(w: World, m: Message)
    requires Local(w) && m.conversationId !in w.active && KeyOf(m) !in w.registry.byMessage
    ensures GoodHere(w, Submit(w, m))
  {
    var w' := Submit(w, m);
    NewTurnKeepsTurns(w.hub.hub.jobs, w.registry, w.calls, m);
    forall d <- w'.active ensures HandlerOk(w', d, w'.active[d]) {
      if d in w.active { NewTurnLeavesHandlers(w, m, d); }
    }
  }

  lemma SubmitAgainIsGood(w: World, m: Message)
    requires Local(w) && (m.conversationId in w.active || KeyOf(m) in w.registry.byMessage)
    ensures GoodHere(w, Submit(w, m))
  {
    var w' := Submit(w, m);
    forall d <- w'.active ensures HandlerOk(w', d, w'.active[d]) {
      if d in w.active { assert HandlerOk(w, d, w.active[d]); }
    }
  }

  lemma SubmitIsGood(w: World, m: Message)
    requires Local(w)
    ensures GoodHere(w, Submit(w, m))
  {
    if m.conversationId !in w.active && KeyOf(m) !in w.registry.byMessage {
      SubmitNewIsGood(w, m);
    } else {
      SubmitAgainIsGood(w, m);
    }
  }

  lemma ThinkIsGood(w: World, c: string)
    requires Local(w)
    ensures GoodHere(w, Next(w, Thinks(c)))
  {
    if At(w, c, Starting) {
      assert HandlerOk(w, c, w.active[c]);
      RewriteIsGood(w, c, w.registry.turns[w.active[c].turnId].(status := Thinking, errorCode := None), Some(Asking(0)));
    }
  }

  lemma AskKeepsCalls(t: Jobs.Table, r: Registry, calls: map<Id, nat>, turnId: Id)
    requires TurnsOk(t, r, calls) && turnId in r.turns && r.turns[turnId].status == Thinking && calls[turnId] <= MAX_TOOL_CALLS_PER_TURN
    ensures TurnsOk(t, r, calls[turnId := calls[turnId] + 1])
  {
    forall id <- r.turns ensures TurnOk(t, id, r.turns[id]) && CallsOk(calls[turnId := calls[turnId] + 1], id, r.turns[id]) {
      assert TurnOk(t, id, r.turns[id]) && CallsOk(calls, id, r.turns[id]);
    }
  }

  lemma AskLeavesHandlers(w: World, c: string, d: string)
    requires Local(w) && c in w.active && w.active[c].at.Asking? && d in w.active
    ensures HandlerOk(Next(w, Asks(c)), d, Next(w, Asks(c)).active[d])
  {
    assert HandlerOk(w, c, w.active[c]) && HandlerOk(w, d, w.active[d]);
  }

  lemma AskKeepsTurns(w: World, c: string)
    requires Local(w) && c in w.active && w.active[c].at.Asking?
    ensures TurnsOk(w.hub.hub.jobs, w.registry, Next(w, Asks(c)).calls)
  {
    assert HandlerOk(w, c, w.active[c]);
    AskKeepsCalls(w.hub.hub.jobs, w.registry, w.calls, w.active[c].turnId);
  }

  lemma AskIsGood(w: World, c: string)
    requires Local(w)
    ensures GoodHere(w, Next(w, Asks(c)))
  {
    if c in w.active && w.active[c].at.Asking? {
      var w' := Next(w, Asks(c));
      AskKeepsTurns(w, c);
      forall d <- w'.active ensures HandlerOk(w', d, w'.active[d]) {
        AskLeavesHandlers(w, c, d);
      }
    }
  }

  lemma ToolAnswerIsGood(w: World, c: string)
    requires Local(w) && c in w.active && w.active[c].at.Awaiting? && w.active[c].at.toolCalls < MAX_TOOL_CALLS_PER_TURN
    ensures GoodHere(w, Go(w, c, Asking(w.active[c].at.toolCalls + 1)))
  {
    assert HandlerOk(w, c, w.active[c]);
    GoIsGood(w, c, Asking(w.active[c].at.toolCalls + 1));
  }

  lemma AwaitingIsThinking(w: World, c: string)
    requires Local(w) && c in w.active && w.active[c].at.Awaiting?
    ensures In(w.registry, w.active[c].turnId, Thinking) && w.active[c].at.toolCalls <= MAX_TOOL_CALLS_PER_TURN
  {
    assert HandlerOk(w, c, w.active[c]);
  }

  /** What an ending makes of its turn while that is thinking. */
  function Concluded(turn: Turn, ending: Ending): Turn {
    match ending
    case GaveUp(code) => turn.(status := Failed, errorCode := Some(code))
    case Answered(reply) => turn.(status := Replied, reply := Some(reply), errorCode := None)
    case Proposed(reply, p) =>
      turn.(status := JobProposed, reply := Some(reply), proposal := Some(p), schedulingError := None, errorCode := None)
  }

  lemma GoOnIs(w: World, c: string, ending: Ending)
    requires c in w.active && w.active[c].at.Awaiting? && In(w.registry, w.active[c].turnId, Thinking)
    ensures var turnId := w.active[c].turnId;
      GoOn(w, c, Some(ending)) ==
        Update(w, c, Ok(Put(w.registry, turnId, Concluded(w.registry.turns[turnId], ending))),
          if ending.Proposed? then Some(Scheduling) else None)
  {
  }

  lemma ConcludeIsGood(w: World, c: string, ending: Ending)
    requires Local(w) && c in w.active && w.active[c].at.Awaiting?
    ensures GoodHere(w, GoOn(w, c, Some(ending)))
  {
    AwaitingIsThinking(w, c);
    GoOnIs(w, c, ending);
    assert HandlerOk(w, c, w.active[c]);
    RewriteIsGood(w, c, Concluded(w.registry.turns[w.active[c].turnId], ending), if ending.Proposed? then Some(Scheduling) else None);
  }

  lemma ReceiveIsGood(w: World, c: string, answer: Answer)
    requires Local(w) && c in w.active && w.active[c].at.Awaiting?
    ensures GoodHere(w, Receive(w, c, answer))
  {
    var ending := EndOf(answer, w.active[c].at.toolCalls);
    if ending.Some? { ConcludeIsGood(w, c, ending.value); } else { ToolAnswerIsGood(w, c); }
  }

  function WithResult(turn: Turn, result: Scheduled): Turn {
    match result
    case Created(jobId) => turn.(jobId := Some(jobId), schedulingError := None)
    case Rejected(code) => turn.(jobId := None, schedulingError := Some(code))
  }

  /** What recording a result does to a turn that still waits for it. */
  lemma RecordIs(w: World, c: string)
    requires c in w.active && w.active[c].at.Recording? && w.active[c].turnId in w.registry.turns
    requires Schedulable(w.registry.turns[w.active[c].turnId])
    ensures var turnId := w.active[c].turnId;
      Next(w, Records(c)) ==
        Update(w, c, Ok(Put(w.registry, turnId, WithResult(w.registry.turns[turnId], w.active[c].at.result))), None)
  {
  }

  lemma RecordingIsSchedulable(w: World, c: string)
    requires Local(w) && c in w.active && w.active[c].at.Recording?
    ensures w.active[c].turnId in w.registry.turns && Schedulable(w.registry.turns[w.active[c].turnId])
  {
    assert HandlerOk(w, c, w.active[c]);
  }

  lemma RecordIsGood(w: World, c: string)
    requires Local(w)
    ensures GoodHere(w, Next(w, Records(c)))
  {
    if c in w.active && w.active[c].at.Recording? {
      assert HandlerOk(w, c, w.active[c]);
      RecordIs(w, c);
      RewriteIsGood(w, c, WithResult(w.registry.turns[w.active[c].turnId], w.active[c].at.result), None);
    }
  }

  lemma InterruptedIsOk(t: Jobs.Table, calls: map<Id, nat>, id: Id, turn: Turn)
    requires TurnOk(t, id, turn) && CallsOk(calls, id, turn)
    ensures TurnOk(t, id, Interrupted(turn)) && CallsOk(calls, id, Interrupted(turn)) && TurnExtends(turn, Interrupted(turn))
  {
  }

  lemma RepairKeepsTurns(t: Jobs.Table, r: Registry, calls: map<Id, nat>)
    requires TurnsOk(t, r, calls)
    ensures TurnsOk(t, Repair(r), calls) && TurnsExtend(r, Repair(r))
  {
    forall id <- r.turns
      ensures TurnOk(t, id, Interrupted(r.turns[id])) && CallsOk(calls, id, Interrupted(r.turns[id]))
      ensures TurnExtends(r.turns[id], Interrupted(r.turns[id]))
    {
      InterruptedIsOk(t, calls, id, r.turns[id]);
    }
  }

  lemma RestartIs(w: World, config: Config)
    ensures Next(w, Restarts(config)) == w.(registry := Repair(w.registry), active := map[], config := config)
  {
  }

  lemma RestartIsGood(w: World, config: Config)
    requires Local(w)
    ensures GoodHere(w, Next(w, Restarts(config)))
  {
    RepairKeepsTurns(w.hub.hub.jobs, w.registry, w.calls);
  }

  /** Bindings, events and configuration are nothing to the turns. */
  lemma OtherTablesDoNotMatter(w: World, w': World)
    requires Local(w) && w' == w.(bindings := w'.bindings, appended := w'.appended, config := w'.config)
    ensures GoodHere(w, w')
  {
    forall c <- w'.active ensures HandlerOk(w', c, w'.active[c]) {
      assert HandlerOk(w, c, w.active[c]);
    }
  }

  lemma RegisterIsGood(w: World, jobId: Id, b: Binding)
    requires Local(w)
    ensures GoodHere(w, Next(w, Registers(jobId, b)))
  {
    OtherTablesDoNotMatter(w, RegisterJob(w, jobId, b));
  }

  // ---- Steps of the Hub ----

  lemma JobStays(t: Jobs.Table, t': Jobs.Table, turnId: Id, turn: Turn, jobId: Id)
    requires Hub.TableExtends(t, t') && IsJobOf(t, turnId, turn, jobId)
    ensures IsJobOf(t', turnId, turn, jobId)
  {
    assert Hub.JobExtends(t, t.jobs[jobId], t'.jobs[jobId]);
  }

  lemma HubMovesOn(w: World, hub: Hub.World)
    requires Local(w) && Hub.TableExtends(w.hub.hub.jobs, hub.hub.jobs)
    ensures Local(w.(hub := hub))
  {
    var w' := w.(hub := hub);
    forall id <- w.registry.turns ensures TurnOk(hub.hub.jobs, id, w.registry.turns[id]) {
      var turn := w.registry.turns[id];
      assert TurnOk(w.hub.hub.jobs, id, turn);
      if turn.jobId.Some? { JobStays(w.hub.hub.jobs, hub.hub.jobs, id, turn, turn.jobId.value); }
    }
    forall c <- w.active ensures HandlerOk(w', c, w.active[c]) {
      var h := w.active[c];
      assert HandlerOk(w, c, h);
      if JobAt(h.at).Some? {
        JobStays(w.hub.hub.jobs, hub.hub.jobs, h.turnId, w.registry.turns[h.turnId], JobAt(h.at).value);
      }
    }
  }

  /** The Job that a submission is about to record. */
  function JobAt(at: Place): Option<Id> {
    match at
    case Approving(jobId) => Some(jobId)
    case Recording(Created(jobId)) => Some(jobId)
    case _ => None
  }

  lemma StoreMovesOn(w: World, s: Store)
    requires Local(w) && Hub.TableExtends(w.hub.hub.jobs, s.hub.hub.jobs)
    ensures Local(WithStore(w, s))
  {
    HubMovesOn(w, s.hub);
    OtherTablesDoNotMatter(w.(hub := s.hub), WithStore(w, s));
  }

  /** The submission goes on to approve or to record the Job that the callback reports. */
  lemma ScheduledGoesOn(w: World, c: string, at: Place)
    requires Local(w) && c in w.active && w.active[c].turnId in w.registry.turns && (at.Approving? || at.Recording?)
    requires Schedulable(w.registry.turns[w.active[c].turnId])
    requires JobAt(at).Some? ==> IsJobOf(w.hub.hub.jobs, w.active[c].turnId, w.registry.turns[w.active[c].turnId], JobAt(at).value)
    requires at.Approving? ==> IsSandboxed(w.registry.turns[w.active[c].turnId])
    ensures GoodHere(w, Go(w, c, at))
  {
    assert HandlerOk(w, c, w.active[c]);
    GoIsGood(w, c, at);
  }


  ghost predicate Good(w: World, w': World) {
    HubGood(w.hub, w'.hub) && Local(w') && TurnsExtend(w.registry, w'.registry)
  }

  lemma Assembled(w: World, w': World)
    requires HubGood(w.hub, w'.hub) && Local(w') && w'.registry == w.registry
    ensures Good(w, w')
  {
  }

  /** A submission that goes on with a store of the callbacks. */
  lemma StoreThenGo(w: World, c: string, s: Store, at: Place)
    requires Local(w) && c in w.active && w.active[c].turnId in w.registry.turns && (at.Approving? || at.Recording?)
    requires Schedulable(w.registry.turns[w.active[c].turnId]) && HubGood(w.hub, s.hub)
    requires JobAt(at).Some? ==> IsJobOf(s.hub.hub.jobs, w.active[c].turnId, w.registry.turns[w.active[c].turnId], JobAt(at).value)
    requires at.Approving? ==> IsSandboxed(w.registry.turns[w.active[c].turnId])
    ensures Good(w, Go(WithStore(w, s), c, at))
  {
    StoreMovesOn(w, s);
    ScheduledGoesOn(WithStore(w, s), c, at);
    Assembled(w, Go(WithStore(w, s), c, at));
  }

  /** What a scheduling step is made of. */
  lemma ScheduleTurnIs(w: World, c: string, offer: Offer, fails: Option<nat>)
    requires At(w, c, Scheduling) && HandlerOk(w, c, w.active[c])
    ensures var turnId := w.active[c].turnId;
      && turnId in w.registry.turns && Schedulable(w.registry.turns[turnId])
      && var p := w.registry.turns[turnId].proposal.value;
         var (s, result) := Schedule(StoreOf(w), w.config, turnId, p, offer, fails);
         ScheduleTurn(w, c, offer, fails) == Go(WithStore(w, s), c, PlaceAfter(s, w.config, p, result))
  {
  }

  lemma ReportedJobIsTheTurns(t: Jobs.Table, turnId: Id, turn: Turn, result: Scheduled)
    requires turn.proposal.Some? && ReportsTheJob(t, RequestOf(turnId, turn.proposal.value), result)
    ensures var job := JobAt(Recording(result)); job.Some? ==> IsJobOf(t, turnId, turn, job.value)
  {
  }

  lemma ApprovingIsSandboxed(turnId: Id, turn: Turn, s: Store, config: Config, result: Scheduled)
    requires turn.proposal.Some? && ReportsTheJob(s.hub.hub.jobs, RequestOf(turnId, turn.proposal.value), result)
    ensures PlaceAfter(s, config, turn.proposal.value, result).Approving? ==> IsSandboxed(turn)
  {
  }

  lemma PlaceAfterIs(s: Store, config: Config, p: Proposal, result: Scheduled)
    ensures var at := PlaceAfter(s, config, p, result);
      (at.Approving? || at.Recording?) && JobAt(at) == JobAt(Recording(result))
  {
  }

  lemma ScheduleIsGoodHere(w: World, c: string, offer: Offer, fails: Option<nat>)
    requires Hub.Inv(w.hub) && Local(w) && At(w, c, Scheduling) && w.hub.clock <= offer.now
    ensures Good(w, ScheduleTurn(w, c, offer, fails))
  {
    assert HandlerOk(w, c, w.active[c]);
    ScheduleTurnIs(w, c, offer, fails);
    var turnId := w.active[c].turnId;
    var turn := w.registry.turns[turnId];
    var (s, result) := Schedule(StoreOf(w), w.config, turnId, turn.proposal.value, offer, fails);
    ScheduleIsGood(StoreOf(w), w.config, turnId, turn.proposal.value, offer, fails);
    ScheduleIsSound(StoreOf(w), w.config, turnId, turn.proposal.value, offer, fails);
    ReportedJobIsTheTurns(s.hub.hub.jobs, turnId, turn, result);
    PlaceAfterIs(s, w.config, turn.proposal.value, result);
    ApprovingIsSandboxed(turnId, turn, s, w.config, result);
    StoreThenGo(w, c, s, PlaceAfter(s, w.config, turn.proposal.value, result));
  }

  lemma ApprovedGoesOn(w: World, c: string, s: Store, result: Scheduled)
    requires Local(w) && c in w.active && w.active[c].turnId in w.registry.turns && HubGood(w.hub, s.hub)
    requires Schedulable(w.registry.turns[w.active[c].turnId])
    requires ReportsTheJob(s.hub.hub.jobs, RequestOf(w.active[c].turnId, w.registry.turns[w.active[c].turnId].proposal.value), result)
    ensures Good(w, Go(WithStore(w, s), c, Recording(result)))
  {
    ReportedJobIsTheTurns(s.hub.hub.jobs, w.active[c].turnId, w.registry.turns[w.active[c].turnId], result);
    StoreThenGo(w, c, s, Recording(result));
  }

  lemma ApproveIsGoodHere(w: World, c: string, now: Time, fails: Option<nat>)
    requires Hub.Inv(w.hub) && Local(w) && c in w.active && w.active[c].at.Approving? && w.hub.clock <= now
    ensures Good(w, ApproveTurn(w, c, now, fails))
  {
    ApprovingHasItsJob(w, c);
    var (turnId, jobId) := (w.active[c].turnId, w.active[c].at.jobId);
    var (s, result) := FinishPolicy(StoreOf(w), jobId, now, fails);
    FinishPolicyIsGood(StoreOf(w), jobId, now, fails);
    FinishPolicyIsSound(StoreOf(w), RequestOf(turnId, w.registry.turns[turnId].proposal.value), jobId, now, fails);
    ApprovedGoesOn(w, c, s, result);
  }

  lemma ApprovingHasItsJob(w: World, c: string)
    requires Hub.Inv(w.hub) && Local(w) && c in w.active && w.active[c].at.Approving?
    ensures var (turnId, jobId) := (w.active[c].turnId, w.active[c].at.jobId);
      && turnId in w.registry.turns && Schedulable(w.registry.turns[turnId])
      && IsSandboxed(w.registry.turns[turnId])
      && IsTheJob(w.hub.hub.jobs, RequestOf(turnId, w.registry.turns[turnId].proposal.value), jobId)
  {
    assert HandlerOk(w, c, w.active[c]);
    KeyLeadsToJob(w.hub, w.active[c].at.jobId);
  }

  lemma KeyLeadsToJob(hub: Hub.World, jobId: Id)
    requires Hub.Inv(hub) && jobId in hub.hub.jobs.jobs
    ensures IsTheJob(hub.hub.jobs, hub.hub.jobs.jobs[jobId].request, jobId)
  {
    assert Hub.KeysOk(hub.hub.jobs);
  }

  lemma NextIsGoodHere(w: World, s: Step)
    requires Local(w) && !s.Schedules? && !s.Approves? && !s.OnHub?
    ensures GoodHere(w, Next(w, s))
  {
    match s
    case Submits(m) => SubmitIsGood(w, m);
    case Thinks(c) => ThinkIsGood(w, c);
    case Asks(c) => AskIsGood(w, c);
    case Receives(c, answer) => if c in w.active && w.active[c].at.Awaiting? { ReceiveIsGood(w, c, answer); }
    case Records(c) => RecordIsGood(w, c);
    case Throws(c) => EndIsGood(w, c);
    case Restarts(config) => RestartIsGood(w, config);
    case Registers(jobId, b) => RegisterIsGood(w, jobId, b);
  }

  lemma HereIsGood(w: World, w': World)
    requires Hub.Inv(w.hub) && GoodHere(w, w')
    ensures Good(w, w')
  {
    SameHubIsGood(w.hub);
  }

  lemma OnHubIs(w: World, step: Hub.Step)
    ensures Next(w, OnHub(step)) == w.(hub := Hub.Next(w.hub, step))
  {
  }

  lemma HubStepIsGood(w: World, step: Hub.Step)
    requires Hub.Inv(w.hub) && Local(w)
    ensures Good(w, Next(w, OnHub(step)))
  {
    OnHubIs(w, step);
    HubNextIsGood(w.hub, step);
    HubMovesOn(w, Hub.Next(w.hub, step));
    Assembled(w, w.(hub := Hub.Next(w.hub, step)));
  }

  lemma StayIsGood(w: World)
    requires Hub.Inv(w.hub) && Local(w)
    ensures Good(w, w)
  {
    SameHubIsGood(w.hub);
  }

  lemma ScheduleStepIs(w: World, s: Step)
    requires s.Schedules?
    ensures Next(w, s) ==
      if At(w, s.conversation, Scheduling) && w.hub.clock <= s.offer.now then ScheduleTurn(w, s.conversation, s.offer, s.fails) else w
  {
  }

  lemma ScheduleStepIsGood(w: World, s: Step)
    requires Hub.Inv(w.hub) && Local(w) && s.Schedules?
    ensures Good(w, Next(w, s))
  {
    ScheduleStepIs(w, s);
    if At(w, s.conversation, Scheduling) && w.hub.clock <= s.offer.now {
      ScheduleIsGoodHere(w, s.conversation, s.offer, s.fails);
    } else {
      StayIsGood(w);
    }
  }

  lemma ApproveStepIs(w: World, s: Step)
    requires s.Approves?
    ensures Next(w, s) ==
      if s.conversation in w.active && w.active[s.conversation].at.Approving? && w.hub.clock <= s.now
      then ApproveTurn(w, s.conversation, s.now, s.fails) else w
  {
  }

  lemma ApproveStepIsGood(w: World, s: Step)
    requires Hub.Inv(w.hub) && Local(w) && s.Approves?
    ensures Good(w, Next(w, s))
  {
    ApproveStepIs(w, s);
    if s.conversation in w.active && w.active[s.conversation].at.Approving? && w.hub.clock <= s.now {
      ApproveIsGoodHere(w, s.conversation, s.now, s.fails);
    } else {
      StayIsGood(w);
    }
  }

  lemma LocalStepIsGood(w: World, s: Step)
    requires Hub.Inv(w.hub) && Local(w) && !s.Schedules? && !s.Approves? && !s.OnHub?
    ensures Good(w, Next(w, s))
  {
    NextIsGoodHere(w, s);
    HereIsGood(w, Next(w, s));
  }

  lemma NextIsGood(w: World, s: Step)
    requires Hub.Inv(w.hub) && Local(w)
    ensures Good(w, Next(w, s))
  {
    if s.Schedules? {
      ScheduleStepIsGood(w, s);
    } else if s.Approves? {
      ApproveStepIsGood(w, s);
    } else if s.OnHub? {
      HubStepIsGood(w, s.step);
    } else {
      LocalStepIsGood(w, s);
    }
  }

  lemma ExtendsTrans(a: World, b: World, c: World)
    requires Extends(a, b) && Extends(b, c)
    ensures Extends(a, c)
  {
    forall j <- a.hub.hub.jobs.jobs
      ensures j in c.hub.hub.jobs.jobs && Hub.JobExtends(a.hub.hub.jobs, a.hub.hub.jobs.jobs[j], c.hub.hub.jobs.jobs[j])
    {
      assert Hub.JobExtends(a.hub.hub.jobs, a.hub.hub.jobs.jobs[j], b.hub.hub.jobs.jobs[j]);
      assert Hub.JobExtends(b.hub.hub.jobs, b.hub.hub.jobs.jobs[j], c.hub.hub.jobs.jobs[j]);
    }
    forall id <- a.registry.turns ensures id in c.registry.turns && TurnExtends(a.registry.turns[id], c.registry.turns[id]) {
      assert TurnExtends(a.registry.turns[id], b.registry.turns[id]) && TurnExtends(b.registry.turns[id], c.registry.turns[id]);
    }
  }

  lemma {:induction false} RunKeepsInv(w: World, steps: seq<Step>)
    requires Inv(w)
    ensures Inv(RunAll(w, steps)) && Extends(w, RunAll(w, steps))
    decreases |steps|
  {
    if steps == [] {
      Hub.SameIsGood(w.hub);
    } else {
      NextIsGood(w, steps[0]);
      RunKeepsInv(Next(w, steps[0]), steps[1..]);
      ExtendsTrans(w, Next(w, steps[0]), RunAll(w, steps));
    }
  }

  lemma FreshIsOk(clock: Time, config: Config)
    ensures Inv(Fresh(clock, config))
  {
    Hub.FreshIsGood(clock);
  }
}
