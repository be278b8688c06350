/**
 * The interview agent's state as a value, and each of its operations as a
 * function of that state and of what the completion endpoint answered.
 * The agent class proves its methods equal to these transitions; the
 * lemmas here state what every transition keeps.
 */
module Session {
  import opened Conversation

  /** The mutable part of an interview agent: conversation history, question counter, interaction log. */
  datatype AgentState = AgentState(history: seq<Message>, questionCount: nat, log: seq<LogEntry>)

  /** The state after an operation together with what the operation hands back. */
  datatype Step<R> = Step(state: AgentState, result: R)

  /** How `askQuestion` ends: it returns the question, or it rethrows the upstream failure. */
  datatype Answer = Returned(text: string) | Threw(error: string)

  const Fresh := AgentState([], 0, [])

  const RequestingQuestion := "Requesting next question from AI"
  const QuestionFailed := "Failed to generate question"
  const RequestingFeedback := "Requesting feedback from AI"
  const FeedbackFailed := "Failed to generate feedback"
  const GeneratingAssessment := "Generating final interview assessment"
  const FinalFeedbackFailed := "Failed to generate final feedback"
  const SessionCreated := "New interview session created"
  const SessionTerminated := "Interview session terminated"

  /** What `provideFeedback` returns when the completion call fails. */
  const FeedbackFallback := "Thank you for that answer. Let's continue."
  /** What `generateFinalFeedback` returns when the completion call fails. */
  const FinalFallback := "Interview completed. Thank you for your participation."

  /** `logInteraction` on values: one entry at the end, stamped with the current question counter. */
  function Logged(s: AgentState, kind: LogKind, content: string, metadata: Metadata): (t: AgentState)
    ensures t.history == s.history && t.questionCount == s.questionCount
    ensures |t.log| == |s.log| + 1 && t.log[..|s.log|] == s.log
    ensures t.log[|s.log|] == LogEntry(kind, content, s.questionCount, metadata)
  {
    s.(log := s.log + [LogEntry(kind, content, s.questionCount, metadata)])
  }

  /**
   * The successful end of `askQuestion`: the question joins the history,
   * the counter goes up and AI_QUESTION is logged with the new counter.
   */
  function QuestionAsked(s: AgentState, question: string, usage: string): (t: AgentState)
    ensures t.history == s.history + [Message(Assistant, question)]
    ensures t.questionCount == s.questionCount + 1
    ensures t.log == s.log + [LogEntry(AiQuestion, question, t.questionCount, ModelUsage(Model, usage))]
  {
    var asked := s.(history := s.history + [Message(Assistant, question)], questionCount := s.questionCount + 1);
    Logged(asked, AiQuestion, question, ModelUsage(Model, usage))
  }

  /** The successful end of `provideFeedback`: the answered turn joins the history and AI_FEEDBACK is logged. */
  function FeedbackGiven(s: AgentState, candidateResponse: string, feedback: string, usage: string): (t: AgentState)
    ensures t.history == s.history + [Message(User, candidateResponse), Message(Assistant, feedback)]
    ensures t.questionCount == s.questionCount
    ensures t.log == s.log + [LogEntry(AiFeedback, feedback, s.questionCount, Usage(usage))]
  {
    var answered := s.(history := s.history + [Message(User, candidateResponse), Message(Assistant, feedback)]);
    Logged(answered, AiFeedback, feedback, Usage(usage))
  }

  /** `askQuestion`, given what the endpoint answered to the question request. */
  function Ask(s: AgentState, reply: Completion): (step: Step<Answer>)
    ensures step.result.Returned? <==> reply.Completed?
    ensures step.state.questionCount == s.questionCount + (if reply.Completed? then 1 else 0)
    ensures |step.state.log| == |s.log| + 2 && step.state.log[..|s.log|] == s.log
    ensures step.state.log[|s.log|].kind == RequestQuestion
    ensures step.state.log[|s.log| + 1].kind == (if reply.Completed? then AiQuestion else Error)
  {
    var requested := Logged(s, RequestQuestion, RequestingQuestion, ConversationLength(|s.history|));
    match reply
    case Completed(question, usage) =>
      Step(QuestionAsked(requested, question, usage), Returned(question))
    case Failed(detail) =>
      Step(Logged(requested, Error, QuestionFailed, ErrorDetail(detail)), Threw(detail))
  }

  /** `provideFeedback(candidateResponse)`, given what the endpoint answered to the feedback request. */
  function Respond(s: AgentState, candidateResponse: string, reply: Completion): (step: Step<string>)
    ensures step.result == (if reply.Completed? then reply.content else FeedbackFallback)
    ensures step.state.questionCount == s.questionCount
    ensures |step.state.log| == |s.log| + 3 && step.state.log[..|s.log|] == s.log
    ensures step.state.log[|s.log|].kind == CandidateResponse && step.state.log[|s.log| + 1].kind == RequestFeedback
    ensures step.state.log[|s.log| + 2].kind == (if reply.Completed? then AiFeedback else Error)
  {
    var received := Logged(s, CandidateResponse, candidateResponse, ResponseLength(|candidateResponse|));
    var requested := Logged(received, RequestFeedback, RequestingFeedback, NoMetadata);
    match reply
    case Completed(feedback, usage) =>
      Step(FeedbackGiven(requested, candidateResponse, feedback, usage), feedback)
    case Failed(detail) =>
      Step(Logged(requested, Error, FeedbackFailed, ErrorDetail(detail)), FeedbackFallback)
  }

  /**
   * `generateFinalFeedback`, given what the endpoint answered to the final
   * request. The statistics of its FINAL_FEEDBACK entry count the log as it
   * stood just before that entry, REQUEST_FINAL_FEEDBACK included.
   */
  function Conclude(s: AgentState, reply: Completion): (step: Step<string>)
    ensures step.result == (if reply.Completed? then reply.content else FinalFallback)
    ensures step.state.history == s.history && step.state.questionCount == s.questionCount
    ensures |step.state.log| == |s.log| + 2 && step.state.log[..|s.log|] == s.log
    ensures step.state.log[|s.log|].kind == RequestFinalFeedback
    ensures step.state.log[|s.log| + 1].kind == (if reply.Completed? then FinalFeedback else Error)
  {
    var requested := Logged(s, RequestFinalFeedback, GeneratingAssessment, NoMetadata);
    match reply
    case Completed(finalFeedback, usage) =>
      var statistics := FinalStatistics(requested.questionCount, |requested.log|, usage);
      Step(Logged(requested, FinalFeedback, finalFeedback, statistics), finalFeedback)
    case Failed(detail) =>
      Step(Logged(requested, Error, FinalFeedbackFailed, ErrorDetail(detail)), FinalFallback)
  }

  /**
   * On success `askQuestion` appends exactly the question to the history as
   * an assistant turn, counts it, logs REQUEST_QUESTION and then AI_QUESTION
   * stamped with the new counter, and returns it; on failure history and
   * counter are as before, REQUEST_QUESTION is followed by ERROR and the
   * failure is rethrown.
   */
  lemma AskEffect(s: AgentState, reply: Completion)
    ensures reply.Completed? ==>
      var step := Ask(s, reply);
      && step.state.history == s.history + [Message(Assistant, reply.content)]
      && step.state.questionCount == s.questionCount + 1
      && step.state.log == s.log + [
           LogEntry(RequestQuestion, RequestingQuestion, s.questionCount, ConversationLength(|s.history|)),
           LogEntry(AiQuestion, reply.content, s.questionCount + 1, ModelUsage(Model, reply.usage))]
      && step.result == Returned(reply.content)
    ensures reply.Failed? ==>
      var step := Ask(s, reply);
      && step.state.history == s.history
      && step.state.questionCount == s.questionCount
      && step.state.log == s.log + [
           LogEntry(RequestQuestion, RequestingQuestion, s.questionCount, ConversationLength(|s.history|)),
           LogEntry(Error, QuestionFailed, s.questionCount, ErrorDetail(reply.detail))]
      && step.result == Threw(reply.detail)
  {
  }

  /**
   * `provideFeedback` never changes the counter and always logs
   * CANDIDATE_RESPONSE then REQUEST_FEEDBACK. On success it appends the
   * candidate's turn and then the feedback, in that order, logs AI_FEEDBACK
   * and returns the feedback; on failure the history is as before, the log
   * ends in ERROR and the fixed fallback text is returned.
   */
  lemma RespondEffect(s: AgentState, candidateResponse: string, reply: Completion)
    ensures Respond(s, candidateResponse, reply).state.questionCount == s.questionCount
    ensures reply.Completed? ==>
      var step := Respond(s, candidateResponse, reply);
      && step.state.history == s.history + [Message(User, candidateResponse), Message(Assistant, reply.content)]
      && step.state.log == s.log + [
           LogEntry(CandidateResponse, candidateResponse, s.questionCount, ResponseLength(|candidateResponse|)),
           LogEntry(RequestFeedback, RequestingFeedback, s.questionCount, NoMetadata),
           LogEntry(AiFeedback, reply.content, s.questionCount, Usage(reply.usage))]
      && step.result == reply.content
    ensures reply.Failed? ==>
      var step := Respond(s, candidateResponse, reply);
      && step.state.history == s.history
      && step.state.log == s.log + [
           LogEntry(CandidateResponse, candidateResponse, s.questionCount, ResponseLength(|candidateResponse|)),
           LogEntry(RequestFeedback, RequestingFeedback, s.questionCount, NoMetadata),
           LogEntry(Error, FeedbackFailed, s.questionCount, ErrorDetail(reply.detail))]
      && step.result == FeedbackFallback
  {
  }

  /**
   * `generateFinalFeedback` never changes history or counter and logs
   * REQUEST_FINAL_FEEDBACK first. On success its FINAL_FEEDBACK entry
   * records the counter and, as the number of interactions, the length of
   * the log just before that entry; on failure it logs ERROR and returns
   * the fixed closing text.
   */
  lemma ConcludeEffect(s: AgentState, reply: Completion)
    ensures var step := Conclude(s, reply);
      && step.state.history == s.history
      && step.state.questionCount == s.questionCount
      && |step.state.log| == |s.log| + 2 && step.state.log[..|s.log|] == s.log
      && step.state.log[|s.log|] == LogEntry(RequestFinalFeedback, GeneratingAssessment, s.questionCount, NoMetadata)
    ensures reply.Completed? ==>
      var step := Conclude(s, reply);
      && step.state.log[|s.log| + 1] == LogEntry(FinalFeedback, reply.content, s.questionCount,
                                                  FinalStatistics(s.questionCount, |step.state.log| - 1, reply.usage))
      && step.result == reply.content
    ensures reply.Failed? ==>
      var step := Conclude(s, reply);
      && step.state.log[|s.log| + 1] == LogEntry(Error, FinalFeedbackFailed, s.questionCount, ErrorDetail(reply.detail))
      && step.result == FinalFallback
  {
  }

  /**
   * The history holds only user and assistant turns, every user turn is
   * answered by the assistant turn right after it, and the assistant turns
   * are the questions plus one feedback per user turn: `questionCount`
   * counts the question messages.
   */
  ghost predicate HistoryOk(history: seq<Message>, questionCount: nat) {
    && CountRole(history, System) == 0
    && Paired(history)
    && CountRole(history, Assistant) == questionCount + CountRole(history, User)
  }

  /** Every user turn is answered by the assistant turn right after it. */
  ghost predicate Paired(history: seq<Message>) {
    forall i :: 0 <= i < |history| && history[i].role == User ==>
      i + 1 < |history| && history[i + 1].role == Assistant
  }

  /**
   * The log holds one AI_QUESTION per question and one AI_FEEDBACK per
   * answered turn; its stamps never go down and the last one does not run
   * ahead of the counter (`StampsBounded` spells out what this gives).
   */
  ghost predicate LogOk(log: seq<LogEntry>, questionCount: nat, answered: nat) {
    && CountKind(log, AiQuestion) == questionCount
    && CountKind(log, AiFeedback) == answered
    && Ascending(log)
    && (|log| > 0 ==> log[|log| - 1].questionNumber <= questionCount)
  }

  /** Stamps never go down from one entry to the next. */
  ghost predicate Ascending(log: seq<LogEntry>)
    decreases |log|
  {
    |log| < 2 || (log[0].questionNumber <= log[1].questionNumber && Ascending(log[1..]))
  }

  /** The texts of the assistant turns, in history order. */
  function AssistantTexts(history: seq<Message>): seq<string> {
    if history == [] then []
    else (if history[0].role == Assistant then [history[0].content] else []) + AssistantTexts(history[1..])
  }

  /** The texts of the AI_QUESTION and AI_FEEDBACK entries, in log order. */
  function AiTexts(log: seq<LogEntry>): seq<string> {
    if log == [] then []
    else (if log[0].kind == AiQuestion || log[0].kind == AiFeedback then [log[0].content] else []) + AiTexts(log[1..])
  }

  /** Texts of the assistant turns over a history with one message appended. */
  lemma {:induction false} AssistantTextsSnoc(history: seq<Message>, m: Message)
    ensures AssistantTexts(history + [m]) == AssistantTexts(history) + (if m.role == Assistant then [m.content] else [])
    decreases |history|
  {
    if history == [] {
      assert [m][1..] == [];
    } else {
      var first := if history[0].role == Assistant then [history[0].content] else [];
      assert (history + [m])[0] == history[0] && (history + [m])[1..] == history[1..] + [m];
      AssistantTextsSnoc(history[1..], m);
      assert AssistantTexts(history + [m]) == first + AssistantTexts(history[1..] + [m]);
    }
  }

  /** Texts of the AI_QUESTION and AI_FEEDBACK entries over a log with one entry appended. */
  lemma {:induction false} AiTextsSnoc(log: seq<LogEntry>, e: LogEntry)
    ensures AiTexts(log + [e]) == AiTexts(log) + (if e.kind == AiQuestion || e.kind == AiFeedback then [e.content] else [])
    decreases |log|
  {
    if log == [] {
      assert [e][1..] == [];
    } else {
      var first := if log[0].kind == AiQuestion || log[0].kind == AiFeedback then [log[0].content] else [];
      assert (log + [e])[0] == log[0] && (log + [e])[1..] == log[1..] + [e];
      AiTextsSnoc(log[1..], e);
      assert AiTexts(log + [e]) == first + AiTexts(log[1..] + [e]);
    }
  }

  /**
   * What stays true of an agent's state between operations. Besides the
   * counts, the log mirrors the history: its AI_QUESTION and AI_FEEDBACK
   * entries carry, in order, exactly the texts of the assistant turns.
   */
  ghost predicate Inv(s: AgentState) {
    && HistoryOk(s.history, s.questionCount)
    && LogOk(s.log, s.questionCount, CountRole(s.history, User))
    && AiTexts(s.log) == AssistantTexts(s.history)
  }

  /** The state of an agent the registry holds: its log opens with INTERVIEW_STARTED and has not ended. */
  ghost predicate Open(s: AgentState) {
    |s.log| > 0 && s.log[0].kind == InterviewStarted && CountKind(s.log, InterviewEnded) == 0
  }

  /** `t` only grew from `s`: history and log by appending, the counter by counting up. */
  ghost predicate Extends(s: AgentState, t: AgentState) {
    s.history <= t.history && s.log <= t.log && s.questionCount <= t.questionCount
  }

  lemma FreshInv()
    ensures Inv(Fresh) && !Open(Fresh)
  {
  }

  /** Counting entries of a kind over a log with one entry appended. */
  lemma CountKindSnoc(log: seq<LogEntry>, e: LogEntry, kind: LogKind)
    ensures CountKind(log + [e], kind) == CountKind(log, kind) + (if e.kind == kind then 1 else 0)
  {
    CountKindAppend(log, [e], kind);
    assert [e][1..] == [];
  }

  /** Counting messages of a role over a history with one message appended. */
  lemma CountRoleSnoc(history: seq<Message>, m: Message, role: Role)
    ensures CountRole(history + [m], role) == CountRole(history, role) + (if m.role == role then 1 else 0)
  {
    CountRoleAppend(history, [m], role);
    assert [m][1..] == [];
  }

  /** An entry stamped no lower than the last one keeps the stamps ascending. */
  lemma {:induction false} AscendingSnoc(log: seq<LogEntry>, e: LogEntry)
    requires Ascending(log)
    requires |log| > 0 ==> log[|log| - 1].questionNumber <= e.questionNumber
    ensures Ascending(log + [e])
    decreases |log|
  {
    if |log| == 1 {
      assert (log + [e])[1..] == [e];
    } else if |log| >= 2 {
      assert (log + [e])[1..] == log[1..] + [e];
      AscendingSnoc(log[1..], e);
    }
  }

  /** Stamps that never go down from one entry to the next are ordered between any two entries. */
  lemma {:induction false} AscendingOrdered(log: seq<LogEntry>)
    requires Ascending(log)
    ensures forall i, j :: 0 <= i <= j < |log| ==> log[i].questionNumber <= log[j].questionNumber
    decreases |log|
  {
    if |log| >= 2 {
      AscendingOrdered(log[1..]);
      forall i, j | 0 <= i <= j < |log|
        ensures log[i].questionNumber <= log[j].questionNumber
      {
        if 0 < i {
          assert log[i] == log[1..][i - 1] && log[j] == log[1..][j - 1];
        } else if 0 < j {
          assert log[1] == log[1..][0] && log[j] == log[1..][j - 1];
        }
      }
    }
  }

  /**
   * In a consistent state the log's stamps are ordered between any two
   * entries, and none runs ahead of the question counter.
   */
  lemma StampsBounded(s: AgentState)
    requires Inv(s)
    ensures forall i, j :: 0 <= i <= j < |s.log| ==> s.log[i].questionNumber <= s.log[j].questionNumber
    ensures forall i :: 0 <= i < |s.log| ==> s.log[i].questionNumber <= s.questionCount
  {
    AscendingOrdered(s.log);
    forall i | 0 <= i < |s.log|
      ensures s.log[i].questionNumber <= s.questionCount
    {
      assert s.log[i].questionNumber <= s.log[|s.log| - 1].questionNumber;
    }
  }

  /**
   * Appending an entry stamped with `questionCount` to a consistent log: an
   * AI_QUESTION entry once the counter went up, an AI_FEEDBACK entry once a
   * turn was answered, any other kind with nothing else changed. The
   * log's first entry and its INTERVIEW_ENDED count are kept unless the
   * entry is INTERVIEW_ENDED.
   */
  lemma LogAppend(log: seq<LogEntry>, questionCount: nat, answered: nat, e: LogEntry)
    requires e.questionNumber == questionCount
    requires e.kind == AiQuestion ==> questionCount > 0
    requires e.kind == AiFeedback ==> answered > 0
    requires LogOk(log, if e.kind == AiQuestion then questionCount - 1 else questionCount,
                   if e.kind == AiFeedback then answered - 1 else answered)
    ensures LogOk(log + [e], questionCount, answered)
    ensures |log| > 0 ==> (log + [e])[0] == log[0]
    ensures e.kind != InterviewEnded ==> CountKind(log + [e], InterviewEnded) == CountKind(log, InterviewEnded)
  {
    CountKindSnoc(log, e, AiQuestion);
    CountKindSnoc(log, e, AiFeedback);
    CountKindSnoc(log, e, InterviewEnded);
    AscendingSnoc(log, e);
  }

  /** Appending an assistant question keeps the history consistent with the counter one higher. */
  lemma QuestionTurn(history: seq<Message>, questionCount: nat, question: string)
    requires HistoryOk(history, questionCount)
    ensures HistoryOk(history + [Message(Assistant, question)], questionCount + 1)
    ensures CountRole(history + [Message(Assistant, question)], User) == CountRole(history, User)
  {
    var h := history + [Message(Assistant, question)];
    CountRoleSnoc(history, Message(Assistant, question), System);
    CountRoleSnoc(history, Message(Assistant, question), User);
    CountRoleSnoc(history, Message(Assistant, question), Assistant);
    forall i | 0 <= i < |h| && h[i].role == User
      ensures i + 1 < |h| && h[i + 1].role == Assistant
    {
      assert h[i] == history[i];
      if i + 1 < |history| {
        assert h[i + 1] == history[i + 1];
      }
    }
  }

  /** Appending a user turn answered by an assistant turn keeps the history consistent and counts one more user turn. */
  lemma AnsweredTurn(history: seq<Message>, questionCount: nat, candidateResponse: string, feedback: string)
    requires HistoryOk(history, questionCount)
    ensures var h := history + [Message(User, candidateResponse), Message(Assistant, feedback)];
      HistoryOk(h, questionCount) && CountRole(h, User) == CountRole(history, User) + 1
  {
    var u := Message(User, candidateResponse);
    var a := Message(Assistant, feedback);
    var h := history + [u, a];
    assert h == (history + [u]) + [a];
    CountRoleSnoc(history, u, System);
    CountRoleSnoc(history, u, User);
    CountRoleSnoc(history, u, Assistant);
    CountRoleSnoc(history + [u], a, System);
    CountRoleSnoc(history + [u], a, User);
    CountRoleSnoc(history + [u], a, Assistant);
    forall i | 0 <= i < |h| && h[i].role == User
      ensures i + 1 < |h| && h[i + 1].role == Assistant
    {
      if i < |history| {
        assert h[i] == history[i];
        if i + 1 < |history| {
          assert h[i + 1] == history[i + 1];
        }
      }
    }
  }

  /**
   * Logging any entry other than AI_QUESTION or AI_FEEDBACK keeps the
   * invariant, only extends the state, and keeps an open session open
   * unless the entry is INTERVIEW_ENDED.
   */
  lemma LoggedKeeps(s: AgentState, kind: LogKind, content: string, metadata: Metadata)
    requires Inv(s)
    requires kind != AiQuestion && kind != AiFeedback
    ensures Inv(Logged(s, kind, content, metadata))
    ensures Extends(s, Logged(s, kind, content, metadata))
    ensures Open(s) && kind != InterviewEnded ==> Open(Logged(s, kind, content, metadata))
  {
    LogAppend(s.log, s.questionCount, CountRole(s.history, User), LogEntry(kind, content, s.questionCount, metadata));
    AiTextsSnoc(s.log, LogEntry(kind, content, s.questionCount, metadata));
  }

  /** The successful end of `askQuestion` keeps the invariant and the session open, and only extends the state. */
  lemma QuestionAskedKeeps(s: AgentState, question: string, usage: string)
    requires Inv(s)
    ensures Inv(QuestionAsked(s, question, usage))
    ensures Extends(s, QuestionAsked(s, question, usage))
    ensures Open(s) ==> Open(QuestionAsked(s, question, usage))
  {
    QuestionTurn(s.history, s.questionCount, question);
    LogAppend(s.log, s.questionCount + 1, CountRole(s.history, User),
              LogEntry(AiQuestion, question, s.questionCount + 1, ModelUsage(Model, usage)));
    AssistantTextsSnoc(s.history, Message(Assistant, question));
    AiTextsSnoc(s.log, LogEntry(AiQuestion, question, s.questionCount + 1, ModelUsage(Model, usage)));
  }

  /** The successful end of `provideFeedback` keeps the invariant and the session open, and only extends the state. */
  lemma FeedbackGivenKeeps(s: AgentState, candidateResponse: string, feedback: string, usage: string)
    requires Inv(s)
    ensures Inv(FeedbackGiven(s, candidateResponse, feedback, usage))
    ensures Extends(s, FeedbackGiven(s, candidateResponse, feedback, usage))
    ensures Open(s) ==> Open(FeedbackGiven(s, candidateResponse, feedback, usage))
  {
    AnsweredTurn(s.history, s.questionCount, candidateResponse, feedback);
    LogAppend(s.log, s.questionCount, CountRole(s.history, User) + 1,
              LogEntry(AiFeedback, feedback, s.questionCount, Usage(usage)));
    var u := Message(User, candidateResponse);
    assert s.history + [u, Message(Assistant, feedback)] == (s.history + [u]) + [Message(Assistant, feedback)];
    AssistantTextsSnoc(s.history, u);
    AssistantTextsSnoc(s.history + [u], Message(Assistant, feedback));
    AiTextsSnoc(s.log, LogEntry(AiFeedback, feedback, s.questionCount, Usage(usage)));
  }

  /** `askQuestion` keeps the invariant and the session open, and only extends the state. */
  lemma AskKeeps(s: AgentState, reply: Completion)
    requires Inv(s)
    ensures Inv(Ask(s, reply).state)
    ensures Extends(s, Ask(s, reply).state)
    ensures Open(s) ==> Open(Ask(s, reply).state)
  {
    LoggedKeeps(s, RequestQuestion, RequestingQuestion, ConversationLength(|s.history|));
    var s1 := Logged(s, RequestQuestion, RequestingQuestion, ConversationLength(|s.history|));
    var t := Ask(s, reply).state;
    match reply
    case Completed(question, usage) =>
      QuestionAskedKeeps(s1, question, usage);
      assert t == QuestionAsked(s1, question, usage);
    case Failed(detail) =>
      LoggedKeeps(s1, Error, QuestionFailed, ErrorDetail(detail));
    PrefixTransitive(s.history, s1.history, t.history);
    PrefixTransitive(s.log, s1.log, t.log);
  }

  /**
   * What `provideFeedback` logs before it calls the endpoint, the candidate's
   * answer and the feedback request, keeps the invariant and the session
   * open, leaves history and counter alone and only extends the log.
   */
  lemma ReceivedKeeps(s: AgentState, candidateResponse: string)
    requires Inv(s)
    ensures var requested := Logged(Logged(s, CandidateResponse, candidateResponse, ResponseLength(|candidateResponse|)),
                                    RequestFeedback, RequestingFeedback, NoMetadata);
      && Inv(requested) && Extends(s, requested)
      && (Open(s) ==> Open(requested))
  {
    LoggedKeeps(s, CandidateResponse, candidateResponse, ResponseLength(|candidateResponse|));
    var received := Logged(s, CandidateResponse, candidateResponse, ResponseLength(|candidateResponse|));
    LoggedKeeps(received, RequestFeedback, RequestingFeedback, NoMetadata);
    PrefixTransitive(s.log, received.log, Logged(received, RequestFeedback, RequestingFeedback, NoMetadata).log);
  }

  /** `provideFeedback` keeps the invariant and the session open, and only extends the state. */
  lemma RespondKeeps(s: AgentState, candidateResponse: string, reply: Completion)
    requires Inv(s)
    ensures Inv(Respond(s, candidateResponse, reply).state)
    ensures Extends(s, Respond(s, candidateResponse, reply).state)
    ensures Open(s) ==> Open(Respond(s, candidateResponse, reply).state)
  {
    ReceivedKeeps(s, candidateResponse);
    var requested := Logged(Logged(s, CandidateResponse, candidateResponse, ResponseLength(|candidateResponse|)),
                            RequestFeedback, RequestingFeedback, NoMetadata);
    var t := Respond(s, candidateResponse, reply).state;
    match reply
    case Completed(feedback, usage) =>
      FeedbackGivenKeeps(requested, candidateResponse, feedback, usage);
      assert t == FeedbackGiven(requested, candidateResponse, feedback, usage);
    case Failed(detail) =>
      LoggedKeeps(requested, Error, FeedbackFailed, ErrorDetail(detail));
      assert t == Logged(requested, Error, FeedbackFailed, ErrorDetail(detail));
    PrefixTransitive(s.history, requested.history, t.history);
    PrefixTransitive(s.log, requested.log, t.log);
  }

  /** `generateFinalFeedback` keeps the invariant and the session open, and only extends the state. */
  lemma ConcludeKeeps(s: AgentState, reply: Completion)
    requires Inv(s)
    ensures Inv(Conclude(s, reply).state)
    ensures Extends(s, Conclude(s, reply).state)
    ensures Open(s) ==> Open(Conclude(s, reply).state)
  {
    LoggedKeeps(s, RequestFinalFeedback, GeneratingAssessment, NoMetadata);
    var s1 := Logged(s, RequestFinalFeedback, GeneratingAssessment, NoMetadata);
    var t := Conclude(s, reply).state;
    match reply
    case Completed(finalFeedback, usage) =>
      LoggedKeeps(s1, FinalFeedback, finalFeedback, FinalStatistics(s1.questionCount, |s1.log|, usage));
      assert t == Logged(s1, FinalFeedback, finalFeedback, FinalStatistics(s1.questionCount, |s1.log|, usage));
    case Failed(detail) =>
      LoggedKeeps(s1, Error, FinalFeedbackFailed, ErrorDetail(detail));
      assert t == Logged(s1, Error, FinalFeedbackFailed, ErrorDetail(detail));
    PrefixTransitive(s.log, s1.log, t.log);
  }

  /** One operation on an agent: the three agent operations and the registry's two log entries. */
  datatype Op =
    | AskOp(reply: Completion)
    | RespondOp(candidateResponse: string, reply: Completion)
    | ConcludeOp(reply: Completion)
    | StartOp(role: string, roomName: string)
    | EndOp

  function Apply(s: AgentState, op: Op): AgentState {
    match op
    case AskOp(reply) => Ask(s, reply).state
    case RespondOp(text, reply) => Respond(s, text, reply).state
    case ConcludeOp(reply) => Conclude(s, reply).state
    case StartOp(role, roomName) => Logged(s, InterviewStarted, SessionCreated, SessionInfo(role, roomName))
    case EndOp => Logged(s, InterviewEnded, SessionTerminated, NoMetadata)
  }

  /** The state after a whole sequence of operations, applied in order. */
  function Run(s: AgentState, ops: seq<Op>): AgentState
    decreases |ops|
  {
    if ops == [] then s else Run(Apply(s, ops[0]), ops[1..])
  }

  /** Number of questions the endpoint produced during a sequence of operations. */
  function QuestionsProduced(ops: seq<Op>): nat
    decreases |ops|
  {
    if ops == [] then 0
    else (if ops[0].AskOp? && ops[0].reply.Completed? then 1 else 0) + QuestionsProduced(ops[1..])
  }

  /** One operation keeps the invariant, only extends the state, and counts the question it produced. */
  lemma ApplyKeeps(s: AgentState, op: Op)
    requires Inv(s)
    ensures Inv(Apply(s, op)) && Extends(s, Apply(s, op))
    ensures Apply(s, op).questionCount == s.questionCount + (if op.AskOp? && op.reply.Completed? then 1 else 0)
  {
    match op
    case AskOp(reply) => AskKeeps(s, reply); AskEffect(s, reply);
    case RespondOp(text, reply) => RespondKeeps(s, text, reply); RespondEffect(s, text, reply);
    case ConcludeOp(reply) => ConcludeKeeps(s, reply); ConcludeEffect(s, reply);
    case StartOp(role, roomName) => LoggedKeeps(s, InterviewStarted, SessionCreated, SessionInfo(role, roomName));
    case EndOp => LoggedKeeps(s, InterviewEnded, SessionTerminated, NoMetadata);
  }

  /**
   * Across any sequence of operations the invariant holds, history and log
   * only grow by appending, and the question counter goes up by exactly the
   * number of questions the endpoint produced.
   */
  lemma {:induction false} RunKeeps(s: AgentState, ops: seq<Op>)
    requires Inv(s)
    ensures Inv(Run(s, ops))
    ensures Extends(s, Run(s, ops))
    ensures Run(s, ops).questionCount == s.questionCount + QuestionsProduced(ops)
    decreases |ops|
  {
    if ops != [] {
      var t := Apply(s, ops[0]);
      ApplyKeeps(s, ops[0]);
      RunKeeps(t, ops[1..]);
      PrefixTransitive(s.history, t.history, Run(t, ops[1..]).history);
      PrefixTransitive(s.log, t.log, Run(t, ops[1..]).log);
    }
  }

  /** Being a prefix is transitive. */
  lemma PrefixTransitive<T>(a: seq<T>, b: seq<T>, c: seq<T>)
    requires a <= b && b <= c
    ensures a <= c
  {
  }
}
