/**
 * One interview session's agent: static session parameters, and the
 * conversation history, question counter and interaction log that its
 * operations update in place. Each operation sends one request to the
 * completion endpoint, given here as the function `endpoint` from request
 * to outcome, and is proved equal to its transition in module Session.
 */
module Agent {
  import opened Conversation
  import opened Session

  /** The parameters a session is started with. */
  datatype Config = Config(roomName: string, role: string, requirements: string, resumeUrl: string, githubUrl: string)

  class InterviewAgent {
    const roomName: string
    const role: string
    const requirements: string
    const resumeUrl: string
    const githubUrl: string
    /** Configured ceiling on the number of questions; nothing reads it. */
    const maxQuestions: nat

    var conversationHistory: seq<Message>
    var questionCount: nat
    var conversationLog: seq<LogEntry>

    /** The mutable state as a value. */
    function Snapshot(): AgentState
      reads this
    {
      AgentState(conversationHistory, questionCount, conversationLog)
    }

    /**
     * The system prompt every request opens with. It is built from the
     * fields above, which never change, so building it once here is the
     * same as rebuilding it for every request.
     */
    const systemPrompt: string

    /** The session invariant holds of the agent's state. */
    ghost predicate Valid()
      reads this
    {
      Inv(Snapshot())
    }

    constructor (config: Config)
      ensures roomName == config.roomName && role == config.role && requirements == config.requirements
      ensures resumeUrl == config.resumeUrl && githubUrl == config.githubUrl
      ensures maxQuestions == 10
      ensures systemPrompt == SystemPrompt(Profile(role, requirements, resumeUrl, githubUrl))
      ensures Snapshot() == Fresh && Valid()
    {
      roomName := config.roomName;
      role := config.role;
      requirements := config.requirements;
      resumeUrl := config.resumeUrl;
      githubUrl := config.githubUrl;
      conversationHistory := [];
      questionCount := 0;
      maxQuestions := 10;
      systemPrompt := SystemPrompt(Profile(config.role, config.requirements, config.resumeUrl, config.githubUrl));
      conversationLog := [];
      FreshInv();
    }

    /** Appends one entry to the log, stamped with the current question counter; nothing else changes. */
    method LogInteraction(kind: LogKind, content: string, metadata: Metadata)
      modifies this
      ensures Snapshot() == Logged(old(Snapshot()), kind, content, metadata)
    {
      conversationLog := conversationLog + [LogEntry(kind, content, questionCount, metadata)];
    }

    /**
     * Asks the endpoint for the next question. On success the question is
     * appended to the history as an assistant turn, the counter goes up and
     * the question is returned; on failure the error is logged and rethrown.
     */
    method AskQuestion(endpoint: ChatRequest -> Completion) returns (answer: Answer)
      requires Valid()
      modifies this
      ensures Valid()
      ensures Extends(old(Snapshot()), Snapshot())
      ensures Open(old(Snapshot())) ==> Open(Snapshot())
      ensures var step := Ask(old(Snapshot()), endpoint(QuestionRequest(systemPrompt, old(conversationHistory), old(questionCount))));
        Snapshot() == step.state && answer == step.result
    {
      ghost var before := Snapshot();
      var messages := QuestionRequest(systemPrompt, conversationHistory, questionCount);
      LogInteraction(RequestQuestion, RequestingQuestion, ConversationLength(|conversationHistory|));
      ghost var requested := Snapshot();
      var reply := endpoint(messages);
      match reply {
        case Completed(question, usage) =>
          conversationHistory := conversationHistory + [Message(Assistant, question)];
          questionCount := questionCount + 1;
          LogInteraction(AiQuestion, question, ModelUsage(Model, usage));
          answer := Returned(question);
          assert Snapshot() == QuestionAsked(requested, question, usage) == Ask(before, reply).state;
        case Failed(detail) =>
          LogInteraction(Error, QuestionFailed, ErrorDetail(detail));
          answer := Threw(detail);
          assert Snapshot() == Logged(requested, Error, QuestionFailed, ErrorDetail(detail)) == Ask(before, reply).state;
      }
      AskKeeps(before, reply);
    }

    /**
     * Asks the endpoint for feedback on the candidate's answer. On success
     * the answer and the feedback are appended as a user and an assistant
     * turn and the feedback is returned; on failure nothing is thrown, the
     * history is left alone and the fixed fallback text is returned.
     */
    method ProvideFeedback(candidateResponse: string, endpoint: ChatRequest -> Completion) returns (feedback: string)
      requires Valid()
      modifies this
      ensures Valid()
      ensures Extends(old(Snapshot()), Snapshot())
      ensures Open(old(Snapshot())) ==> Open(Snapshot())
      ensures var step := Respond(old(Snapshot()), candidateResponse,
                                  endpoint(FeedbackRequest(systemPrompt, old(conversationHistory), candidateResponse)));
        Snapshot() == step.state && feedback == step.result
    {
      ghost var before := Snapshot();
      LogInteraction(CandidateResponse, candidateResponse, ResponseLength(|candidateResponse|));
      var messages := FeedbackRequest(systemPrompt, conversationHistory, candidateResponse);
      LogInteraction(RequestFeedback, RequestingFeedback, NoMetadata);
      var reply := endpoint(messages);
      match reply {
        case Completed(text, usage) =>
          conversationHistory := conversationHistory + [Message(User, candidateResponse), Message(Assistant, text)];
          LogInteraction(AiFeedback, text, Usage(usage));
          feedback := text;
        case Failed(detail) =>
          LogInteraction(Error, FeedbackFailed, ErrorDetail(detail));
          feedback := FeedbackFallback;
      }
      assert Snapshot() == Respond(before, candidateResponse, reply).state;
      RespondKeeps(before, candidateResponse, reply);
    }

    /**
     * Asks the endpoint for the closing assessment. History and counter are
     * never touched; on failure nothing is thrown and the fixed closing
     * text is returned.
     */
    method GenerateFinalFeedback(endpoint: ChatRequest -> Completion) returns (finalFeedback: string)
      requires Valid()
      modifies this
      ensures Valid()
      ensures Extends(old(Snapshot()), Snapshot())
      ensures Open(old(Snapshot())) ==> Open(Snapshot())
      ensures var step := Conclude(old(Snapshot()), endpoint(FinalRequest(systemPrompt, old(conversationHistory))));
        Snapshot() == step.state && finalFeedback == step.result
    {
      ghost var before := Snapshot();
      LogInteraction(RequestFinalFeedback, GeneratingAssessment, NoMetadata);
      var messages := FinalRequest(systemPrompt, conversationHistory);
      var reply := endpoint(messages);
      match reply {
        case Completed(text, usage) =>
          LogInteraction(FinalFeedback, text, FinalStatistics(questionCount, |conversationLog|, usage));
          finalFeedback := text;
        case Failed(detail) =>
          LogInteraction(Error, FinalFeedbackFailed, ErrorDetail(detail));
          finalFeedback := FinalFallback;
      }
      assert Snapshot() == Conclude(before, reply).state;
      ConcludeKeeps(before, reply);
    }

    /** The interaction log, read without changing anything. */
    method GetConversationLog() returns (log: seq<LogEntry>)
      ensures log == conversationLog
    {
      log := conversationLog;
    }
  }
}
