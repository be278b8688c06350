/**
 * The dispatch decisions of the agent HTTP routes: each looks the room up
 * first and answers 404 when it has no agent, drives one agent operation
 * otherwise, and maps a thrown failure to 500. Every handler leaves the
 * agents of all other rooms exactly as they were.
 */
module Routes {
  import opened Wrappers
  import opened Conversation
  import opened Session
  import opened Agent
  import opened Registry

  /** What a route answers: an error status, or the fields of its JSON body. */
  datatype Response =
    | NotFound
    | ServerError(error: string)
    | QuestionReply(question: string, questionNumber: nat)
    | FeedbackReply(feedback: string)
    | FinalReply(feedback: string, totalQuestions: nat, totalInteractions: nat)
    | LogReply(roomName: string, totalEntries: nat, log: seq<LogEntry>)
  {
    /** The HTTP status code of the response. */
    function Status(): (code: nat)
      ensures code == 404 <==> NotFound?
      ensures code == 500 <==> ServerError?
      ensures code == 200 <==> !NotFound? && !ServerError?
    {
      match this
      case NotFound => 404
      case ServerError(_) => 500
      case _ => 200
    }
  }

  const QuestionError := "Failed to generate question"

  /**
   * POST /question: 404 for an unknown room; otherwise the agent asks its
   * next question and the reply carries the question and the incremented
   * counter, or the route answers 500 when asking failed.
   */
  method HandleQuestion(registry: AgentRegistry, roomName: string, endpoint: ChatRequest -> Completion)
    returns (response: Response)
    requires registry.Valid()
    modifies registry.agents.Values
    ensures registry.Valid() && registry.agents == old(registry.agents)
    ensures forall r :: r in old(registry.agents) && r != roomName ==>
      var other := old(registry.agents)[r]; other.Snapshot() == old(other.Snapshot())
    ensures roomName !in registry.agents ==> response == NotFound
    ensures roomName in registry.agents ==>
      var agent := registry.agents[roomName];
      var step := Ask(old(agent.Snapshot()),
        endpoint(QuestionRequest(agent.systemPrompt, old(agent.conversationHistory), old(agent.questionCount))));
      && agent.Snapshot() == step.state
      && response == match step.result
                     case Returned(question) => QuestionReply(question, old(agent.questionCount) + 1)
                     case Threw(_) => ServerError(QuestionError)
  {
    var found := registry.GetAgent(roomName);
    if found.None? {
      return NotFound;
    }
    var agent := found.value;
    ghost var step := Ask(agent.Snapshot(), endpoint(QuestionRequest(agent.systemPrompt, agent.conversationHistory, agent.questionCount)));
    var answer := agent.AskQuestion(endpoint);
    assert agent.Snapshot() == step.state && answer == step.result;
    registry.OneAgentChanged(roomName);
    match answer {
      case Returned(question) =>
        response := QuestionReply(question, agent.questionCount);
      case Threw(_) =>
        response := ServerError(QuestionError);
    }
  }

  /**
   * POST /response: 404 for an unknown room; otherwise the candidate's text
   * goes to the agent and its feedback is returned. Feedback failures are
   * absorbed by the agent, so this route never answers 500.
   */
  method HandleResponse(registry: AgentRegistry, roomName: string, candidateResponse: string,
                        endpoint: ChatRequest -> Completion)
    returns (response: Response)
    requires registry.Valid()
    modifies registry.agents.Values
    ensures registry.Valid() && registry.agents == old(registry.agents)
    ensures forall r :: r in old(registry.agents) && r != roomName ==>
      var other := old(registry.agents)[r]; other.Snapshot() == old(other.Snapshot())
    ensures !response.ServerError?
    ensures roomName !in registry.agents ==> response == NotFound
    ensures roomName in registry.agents ==>
      var agent := registry.agents[roomName];
      var step := Respond(old(agent.Snapshot()), candidateResponse,
        endpoint(FeedbackRequest(agent.systemPrompt, old(agent.conversationHistory), candidateResponse)));
      agent.Snapshot() == step.state && response == FeedbackReply(step.result)
  {
    var found := registry.GetAgent(roomName);
    if found.None? {
      return NotFound;
    }
    var agent := found.value;
    var feedback := agent.ProvideFeedback(candidateResponse, endpoint);
    registry.OneAgentChanged(roomName);
    response := FeedbackReply(feedback);
  }

  /**
   * POST /final-feedback: 404 for an unknown room; otherwise the agent
   * produces its closing assessment and is then removed. The reported
   * number of interactions is read from the live log after the removal,
   * so it includes the INTERVIEW_ENDED entry.
   */
  method HandleFinalFeedback(registry: AgentRegistry, roomName: string, endpoint: ChatRequest -> Completion)
    returns (response: Response)
    requires registry.Valid()
    modifies registry, registry.agents.Values
    ensures registry.Valid()
    ensures forall r :: r in old(registry.agents) && r != roomName ==>
      var other := old(registry.agents)[r]; other.Snapshot() == old(other.Snapshot())
    ensures roomName !in old(registry.agents) ==> response == NotFound && registry.agents == old(registry.agents)
    ensures roomName in old(registry.agents) ==>
      var agent := old(registry.agents)[roomName];
      var step := Conclude(old(agent.Snapshot()), endpoint(FinalRequest(agent.systemPrompt, old(agent.conversationHistory))));
      && registry.agents == old(registry.agents) - {roomName}
      && agent.Snapshot() == Logged(step.state, InterviewEnded, SessionTerminated, NoMetadata)
      && response == FinalReply(step.result, step.state.questionCount, |step.state.log| + 1)
  {
    var found := registry.GetAgent(roomName);
    if found.None? {
      return NotFound;
    }
    var agent := found.value;
    var feedback := agent.GenerateFinalFeedback(endpoint);
    registry.OneAgentChanged(roomName);
    registry.RemoveAgent(roomName);
    // The route holds the live log array, so its length is read after the removal.
    response := FinalReply(feedback, agent.questionCount, |agent.conversationLog|);
  }

  /** GET /conversation-log: 404 for an unknown room, otherwise the agent's whole log; nothing changes. */
  method HandleConversationLog(registry: AgentRegistry, roomName: string) returns (response: Response)
    ensures roomName !in registry.agents <==> response == NotFound
    ensures roomName in registry.agents ==>
      response == LogReply(roomName, |registry.agents[roomName].conversationLog|, registry.agents[roomName].conversationLog)
  {
    var found := registry.GetAgent(roomName);
    if found.None? {
      return NotFound;
    }
    var log := found.value.GetConversationLog();
    response := LogReply(roomName, |log|, log);
  }
}
