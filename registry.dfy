/**
 * The process-wide map from room name to the agent running that room's
 * interview: start inserts a fresh agent, get looks one up, remove logs
 * the end of the session and forgets the agent.
 */
module Registry {
  import opened Wrappers
  import opened Conversation
  import opened Session
  import opened Agent

  /** What the registry requires of the agent it holds for room `r`. */
  ghost predicate Holds(agent: InterviewAgent, r: string)
    reads agent
  {
    agent.roomName == r && agent.Valid() && Open(agent.Snapshot())
  }

  class AgentRegistry {
    var agents: map<string, InterviewAgent>

    /**
     * Each agent is held under its own room name, keeps its invariant and
     * is an open session: its log starts with INTERVIEW_STARTED and has no
     * INTERVIEW_ENDED.
     */
    ghost predicate Valid()
      reads this, agents.Values
    {
      forall r :: r in agents ==> Holds(agents[r], r)
    }

    /** No agent is held under two room names. */
    lemma NoAgentTwice()
      requires Valid()
      ensures forall r1, r2 :: r1 in agents && r2 in agents && agents[r1] == agents[r2] ==> r1 == r2
    {
      forall r1, r2 | r1 in agents && r2 in agents && agents[r1] == agents[r2]
        ensures r1 == r2
      {
        assert Holds(agents[r1], r1) && Holds(agents[r2], r2);
      }
    }

    constructor ()
      ensures agents == map[] && Valid()
    {
      agents := map[];
    }

    /**
     * Creates an agent for the room, registers it (replacing whatever the
     * room held before) and logs INTERVIEW_STARTED as its first entry.
     */
    method StartInterviewAgent(config: Config) returns (agent: InterviewAgent)
      requires Valid()
      modifies this
      ensures Valid() && fresh(agent)
      ensures agents == old(agents)[config.roomName := agent]
      ensures agent.roomName == config.roomName && agent.role == config.role
      ensures agent.requirements == config.requirements && agent.resumeUrl == config.resumeUrl
      ensures agent.githubUrl == config.githubUrl
      ensures agent.systemPrompt == SystemPrompt(Profile(config.role, config.requirements, config.resumeUrl, config.githubUrl))
      ensures agent.Snapshot() == Logged(Fresh, InterviewStarted, SessionCreated, SessionInfo(config.role, config.roomName))
    {
      agent := new InterviewAgent(config);
      agents := agents[config.roomName := agent];
      FreshInv();
      LoggedKeeps(Fresh, InterviewStarted, SessionCreated, SessionInfo(config.role, config.roomName));
      agent.LogInteraction(InterviewStarted, SessionCreated, SessionInfo(config.role, config.roomName));
      CountKindAppend([], agent.conversationLog, InterviewEnded);
      assert agent.conversationLog[1..] == [];
    }

    /** The agent registered for the room, if there is one. */
    function GetAgent(roomName: string): (found: Option<InterviewAgent>)
      reads this
      ensures found.Some? <==> roomName in agents
      ensures found.Some? ==> found.value == agents[roomName]
    {
      if roomName in agents then Some(agents[roomName]) else None
    }

    /**
     * Logs INTERVIEW_ENDED on the room's agent if there is one, then
     * forgets the room; an absent room is left as it is.
     */
    method RemoveAgent(roomName: string)
      requires Valid()
      modifies this, if roomName in agents then {agents[roomName]} else {}
      ensures Valid()
      ensures agents == old(agents) - {roomName}
      ensures forall r :: r in agents ==> agents[r].Snapshot() == old(agents[r].Snapshot())
      ensures roomName in old(agents) ==>
        old(agents)[roomName].Snapshot() == Logged(old(agents[roomName].Snapshot()), InterviewEnded, SessionTerminated, NoMetadata)
    {
      if roomName in agents {
        var agent := agents[roomName];
        LoggedKeeps(agent.Snapshot(), InterviewEnded, SessionTerminated, NoMetadata);
        agent.LogInteraction(InterviewEnded, SessionTerminated, NoMetadata);
      }
      agents := agents - {roomName};
    }

    /**
     * An operation that changed only the agent held for one room, and left
     * that agent fit to be held, leaves the registry valid.
     */
    twostate lemma OneAgentChanged(roomName: string)
      requires old(Valid())
      requires agents == old(agents)
      requires roomName in agents
      requires Holds(agents[roomName], roomName)
      requires forall r :: r in agents && r != roomName ==> unchanged(agents[r])
      ensures Valid()
    {
    }
  }

  /**
   * The deferred first question that starting a session schedules: the
   * agent asks its question and a failure is swallowed, so the session
   * stays usable whatever the endpoint answers.
   */
  method FirstQuestionTimer(agent: InterviewAgent, endpoint: ChatRequest -> Completion)
    requires agent.Valid()
    modifies agent
    ensures agent.Valid()
    ensures agent.Snapshot() == Ask(old(agent.Snapshot()),
      endpoint(QuestionRequest(agent.systemPrompt, old(agent.conversationHistory), old(agent.questionCount)))).state
  {
    var _ := agent.AskQuestion(endpoint);
  }
}
