/**
 Conversation turns: the registry's guarded updates, and the orchestrator that drives them.
 A message and its digest stand for each other.
 */
module Conversation {
  import opened Wrappers
  import Jobs

  type Id = nat

  const MAX_TOOL_CALLS_PER_TURN: nat := 4

  datatype Message = Message(conversationId: string, messageId: Id, channel: string, text: string, attachments: seq<string>)

  type Sandboxed = t: Jobs.Tool | t != Jobs.Agent witness Jobs.Codex

  /** `prompt` is the text that the Job is created with. For a self-improvement it is built from the metadata, whose JSON text
      is `context` and from the text of the request. */
  datatype Proposal =
    | JobProposal(workspaceId: string, tool: Jobs.Tool, operation: string, prompt: string)
    | ImprovementProposal(workspaceId: string, sandbox: Sandboxed, context: string, prompt: string)

  datatype Status = Queued | Thinking | Replied | JobProposed | Failed

  datatype Turn = Turn(
    message: Message, status: Status, reply: Option<string>, proposal: Option<Proposal>,
    jobId: Option<Id>, schedulingError: Option<string>, errorCode: Option<string>)

  /** `byMessage` is the unique index on (channel, message_id); `drawn` numbers the turn ids drawn. */
  datatype Registry = Registry(turns: map<Id, Turn>, byMessage: map<(string, Id), Id>, drawn: nat)

  datatype Accepted = NewTurn(turnId: Id) | Duplicate(turnId: Id) | Conflict

  datatype Failure = NotQueued | NotThinking | NoProposal | CannotFail

  datatype Scheduled = Created(jobId: Id) | Rejected(code: string)

  function Put(r: Registry, turnId: Id, turn: Turn): Registry {
    r.(turns := r.turns[turnId := turn])
  }

  function KeyOf(m: Message): (string, Id) {
    (m.channel, m.messageId)
  }

  function Accept(r: Registry, m: Message): (Registry, Accepted) {
    if KeyOf(m) in r.byMessage then
      var turnId := r.byMessage[KeyOf(m)];
      (r, if turnId in r.turns && r.turns[turnId].message == m then Duplicate(turnId) else Conflict)
    else
      (Registry(r.turns[r.drawn := Turn(m, Queued, None, None, None, None, None)], r.byMessage[KeyOf(m) := r.drawn], r.drawn + 1),
       NewTurn(r.drawn))
  }

  predicate In(r: Registry, turnId: Id, status: Status) {
    turnId in r.turns && r.turns[turnId].status == status
  }

  function MarkThinking(r: Registry, turnId: Id): Result<Registry, Failure> {
    if !In(r, turnId, Queued) then Err(NotQueued)
    else Ok(Put(r, turnId, r.turns[turnId].(status := Thinking, errorCode := None)))
  }

  function CompleteReply(r: Registry, turnId: Id, reply: string): Result<Registry, Failure> {
    if !In(r, turnId, Thinking) then Err(NotThinking)
    else Ok(Put(r, turnId, r.turns[turnId].(status := Replied, reply := Some(reply), errorCode := None)))
  }

  function RecordProposal(r: Registry, turnId: Id, reply: string, p: Proposal): Result<Registry, Failure> {
    if !In(r, turnId, Thinking) then Err(NotThinking)
    else
      Ok(Put(r, turnId, r.turns[turnId].(
        status := JobProposed, reply := Some(reply), proposal := Some(p), schedulingError := None, errorCode := None)))
  }

  /** The later result replaces the earlier one, Job id and error alike. */
  function RecordSchedulingResult(r: Registry, turnId: Id, result: Scheduled): Result<Registry, Failure> {
    if !In(r, turnId, JobProposed) then Err(NoProposal)
    else match result
      case Created(jobId) => Ok(Put(r, turnId, r.turns[turnId].(jobId := Some(jobId), schedulingError := None)))
      case Rejected(code) => Ok(Put(r, turnId, r.turns[turnId].(jobId := None, schedulingError := Some(code))))
  }

  function Fail(r: Registry, turnId: Id, errorCode: string): Result<Registry, Failure> {
    if !In(r, turnId, Queued) && !In(r, turnId, Thinking) then Err(CannotFail)
    else Ok(Put(r, turnId, r.turns[turnId].(status := Failed, errorCode := Some(errorCode))))
  }

  function Interrupted(t: Turn): Turn {
    if t.status in {Queued, Thinking} then t.(status := Failed, errorCode := Some("AGENT_INTERRUPTED")) else t
  }

  /** open fails the turns that a dead process left unfinished. */
  function Repair(r: Registry): Registry {
    r.(turns := map id <- r.turns :: Interrupted(r.turns[id]))
  }

  /** An update returns and is made, or throws and is not. */
  predicate Makes(before: Registry, update: Result<Registry, Failure>, after: Registry, failure: Option<Failure>) {
    match update
    case Ok(r) => after == r && failure == None
    case Err(error) => after == before && failure == Some(error)
  }

  class ConversationRegistry {
    var turns: map<Id, Turn>
    var byMessage: map<(string, Id), Id>
    var drawn: nat

    function View(): Registry
      reads this
    {
      Registry(turns, byMessage, drawn)
    }

    constructor ()
      ensures View() == Registry(map[], map[], 0)
    {
      turns, byMessage, drawn := map[], map[], 0;
    }

    method Open()
      modifies this`turns
      ensures View() == Repair(old(View()))
    {
      turns := map id <- turns :: Interrupted(turns[id]);
    }

    method AcceptMessage(m: Message) returns (outcome: Accepted)
      modifies this
      ensures (View(), outcome) == Accept(old(View()), m)
    {
      if KeyOf(m) in byMessage {
        var turnId := byMessage[KeyOf(m)];
        return if turnId in turns && turns[turnId].message == m then Duplicate(turnId) else Conflict;
      }
      turns := turns[drawn := Turn(m, Queued, None, None, None, None, None)];
      byMessage := byMessage[KeyOf(m) := drawn];
      outcome := NewTurn(drawn);
      drawn := drawn + 1;
    }

    method StartThinking(turnId: Id) returns (failure: Option<Failure>)
      modifies this`turns
      ensures Makes(old(View()), MarkThinking(old(View()), turnId), View(), failure)
    {
      if turnId !in turns || turns[turnId].status != Queued { return Some(NotQueued); }
      turns := turns[turnId := turns[turnId].(status := Thinking, errorCode := None)];
      failure := None;
    }

    method StoreReply(turnId: Id, reply: string) returns (failure: Option<Failure>)
      modifies this`turns
      ensures Makes(old(View()), CompleteReply(old(View()), turnId, reply), View(), failure)
    {
      if turnId !in turns || turns[turnId].status != Thinking { return Some(NotThinking); }
      turns := turns[turnId := turns[turnId].(status := Replied, reply := Some(reply), errorCode := None)];
      failure := None;
    }

    method StoreProposal(turnId: Id, reply: string, p: Proposal) returns (failure: Option<Failure>)
      modifies this`turns
      ensures Makes(old(View()), RecordProposal(old(View()), turnId, reply, p), View(), failure)
    {
      if turnId !in turns || turns[turnId].status != Thinking { return Some(NotThinking); }
      turns := turns[turnId := turns[turnId].(
        status := JobProposed, reply := Some(reply), proposal := Some(p), schedulingError := None, errorCode := None)];
      failure := None;
    }

    method StoreSchedulingResult(turnId: Id, result: Scheduled) returns (failure: Option<Failure>)
      modifies this`turns
      ensures Makes(old(View()), RecordSchedulingResult(old(View()), turnId, result), View(), failure)
    {
      if turnId !in turns || turns[turnId].status != JobProposed { return Some(NoProposal); }
      var jobId := if result.Created? then Some(result.jobId) else None;
      var code := if result.Rejected? then Some(result.code) else None;
      turns := turns[turnId := turns[turnId].(jobId := jobId, schedulingError := code)];
      failure := None;
    }

    method FailTurn(turnId: Id, errorCode: string) returns (failure: Option<Failure>)
      modifies this`turns
      ensures Makes(old(View()), Fail(old(View()), turnId, errorCode), View(), failure)
    {
      if turnId !in turns || turns[turnId].status !in {Queued, Thinking} { return Some(CannotFail); }
      turns := turns[turnId := turns[turnId].(status := Failed, errorCode := Some(errorCode))];
      failure := None;
    }
  }

  // ---- One model dialogue ----

  /** What comes of a model call. `available` tells whether the Hub offers the tool it asks for. */
  datatype Answer =
    | AgentFails
    | OutputRejected
    | Replies(reply: string)
    | Proposes(reply: string, proposal: Proposal)
    | CallsTool(available: bool)

  datatype Ending = Answered(reply: string) | Proposed(reply: string, proposal: Proposal) | GaveUp(errorCode: string)

  /** How the dialogue goes on after an answer that ends `calls` earlier tool calls: it ends, or asks the model again. */
  function EndOf(answer: Answer, toolCalls: nat): Option<Ending> {
    match answer
    case AgentFails => Some(GaveUp("AGENT_FAILED"))
    case OutputRejected => Some(GaveUp("MODEL_OUTPUT_REJECTED"))
    case Replies(reply) => Some(Answered(reply))
    case Proposes(reply, proposal) => Some(Proposed(reply, proposal))
    case CallsTool(available) =>
      if toolCalls + 1 > MAX_TOOL_CALLS_PER_TURN || !available then Some(GaveUp("MODEL_OUTPUT_REJECTED")) else None
  }

  /** The model answers in turn, the i-th call with answers(i); the dialogue always ends, after at most five calls. */
  method Converse(answers: nat -> Answer) returns (ending: Ending, calls: nat)
    ensures 1 <= calls <= MAX_TOOL_CALLS_PER_TURN + 1
    ensures EndOf(answers(calls - 1), calls - 1) == Some(ending)
    ensures forall i: nat | i < calls - 1 :: EndOf(answers(i), i).None?
  {
    var output := answers(0);
    calls := 1;
    var toolCalls := 0;
    while output.CallsTool?
      invariant calls == toolCalls + 1 && toolCalls <= MAX_TOOL_CALLS_PER_TURN
      invariant output == answers(toolCalls)
      invariant forall i: nat | i < toolCalls :: EndOf(answers(i), i).None?
      decreases MAX_TOOL_CALLS_PER_TURN - toolCalls
    {
      toolCalls := toolCalls + 1;
      if toolCalls > MAX_TOOL_CALLS_PER_TURN || !output.available {
        return GaveUp("MODEL_OUTPUT_REJECTED"), calls;
      }
      output := answers(toolCalls);
      calls := calls + 1;
    }
    ending := EndOf(output, toolCalls).value;
  }
}
