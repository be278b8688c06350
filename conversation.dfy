/**
 * The values an interview agent exchanges with the chat-completion endpoint
 * and records in its interaction log: role-tagged messages, log entries,
 * the request sent to the endpoint and the outcome that comes back.
 */
module Conversation {

  /** Author of a chat message. */
  datatype Role = System | User | Assistant

  /** One `{role, content}` element of a conversation. */
  datatype Message = Message(role: Role, content: string)

  /**
   * The `type` tag of an interaction-log entry: INTERVIEW_STARTED,
   * REQUEST_QUESTION, AI_QUESTION, CANDIDATE_RESPONSE, REQUEST_FEEDBACK,
   * AI_FEEDBACK, REQUEST_FINAL_FEEDBACK, FINAL_FEEDBACK, ERROR and
   * INTERVIEW_ENDED.
   */
  datatype LogKind =
    | InterviewStarted
    | RequestQuestion
    | AiQuestion
    | CandidateResponse
    | RequestFeedback
    | AiFeedback
    | RequestFinalFeedback
    | FinalFeedback
    | Error
    | InterviewEnded

  /**
   * The extra fields spread into a log entry. Token-usage objects and
   * upstream error bodies are carried as opaque strings.
   */
  datatype Metadata =
    | NoMetadata
    | SessionInfo(role: string, roomName: string)
    | ConversationLength(conversationLength: nat)
    | ResponseLength(responseLength: nat)
    | ModelUsage(model: string, tokens: string)
    | Usage(tokens: string)
    | FinalStatistics(totalQuestions: nat, totalInteractions: nat, tokens: string)
    | ErrorDetail(error: string)

  /** A log entry: its type, its content and the question counter at the time it was written. */
  datatype LogEntry = LogEntry(kind: LogKind, content: string, questionNumber: nat, metadata: Metadata)

  /**
   * What one call to the completion endpoint yields: the content of the
   * first choice together with the usage counters, or a failure carrying
   * the upstream error body (or the error message when there is none).
   */
  datatype Completion = Completed(content: string, usage: string) | Failed(detail: string)

  /** A chat-completion request: the model, the ordered messages and the response-length ceiling. */
  datatype ChatRequest = ChatRequest(model: string, messages: seq<Message>, maxTokens: nat)

  /** The static session parameters the system prompt is built from; an absent GitHub URL is "". */
  datatype Profile = Profile(role: string, requirements: string, resumeUrl: string, githubUrl: string)

  const Model := "llama3.1-8b"
  const QuestionMaxTokens: nat := 200
  const FeedbackMaxTokens: nat := 150
  const FinalFeedbackMaxTokens: nat := 500

  const PromptIntro := "You are an expert technical interviewer conducting an interview for the role: "
  const RequirementsLabel := ".\n\nKey Requirements: "
  const ResumeLabel := "\nCandidate Resume: "
  const GithubLabel := "GitHub Profile: "
  const PromptInstructions :=
    "\n\nYour task:\n"
    + "1. Conduct a natural, conversational interview - don't mention question numbers\n"
    + "2. Ask relevant technical and behavioral questions based on the role\n"
    + "3. Listen carefully to responses and ask thoughtful follow-up questions\n"
    + "4. Provide brief, encouraging feedback after answers\n"
    + "5. Make the candidate feel comfortable while assessing their skills\n"
    + "6. Vary between technical questions, behavioral questions, and scenario-based questions\n"
    + "7. Keep your questions and responses concise but natural\n"
    + "\nImportant: This is a conversational interview. Never say \"Question 1\", \"Question 2\", etc. Just ask naturally."

  const FirstQuestionInstruction :=
    "Welcome the candidate warmly and ask your first question naturally. Don't mention it's \"question 1\"."
  const NextQuestionInstruction :=
    "Ask your next question naturally based on the conversation so far. Make it conversational."
  const FinalFeedbackInstruction :=
    "Provide comprehensive final feedback on the candidate's overall performance. Include:\n"
    + "          1. Overall impression and key strengths\n"
    + "          2. Areas for improvement\n"
    + "          3. Technical competency assessment\n"
    + "          4. Communication and soft skills\n"
    + "          5. A rating out of 10 with justification\n"
    + "          6. Hiring recommendation (Strong Yes / Yes / Maybe / No)\n"
    + "          \n"
    + "          Be constructive, specific, and professional."

  /** The optional GitHub line of the system prompt: present only for a non-empty URL. */
  function GithubLine(githubUrl: string): string {
    if githubUrl != "" then GithubLabel + githubUrl else ""
  }

  /**
   * The system prompt: the fixed opening and the role, then the
   * requirements, the resume and the optional GitHub line, and last the
   * fixed instructions.
   */
  function SystemPrompt(p: Profile): (prompt: string)
    ensures PromptIntro + p.role <= prompt
    ensures prompt[|PromptIntro|..|PromptIntro| + |p.role|] == p.role
  {
    var head := PromptIntro + p.role;
    var prompt := head + PromptRest(p);
    assert prompt[..|head|] == head;
    assert head[|PromptIntro|..] == p.role;
    prompt
  }

  /** Everything the system prompt says after the role. */
  function PromptRest(p: Profile): string {
    PromptBody(p.requirements, p.resumeUrl) + GithubLine(p.githubUrl) + PromptInstructions
  }

  /** Everything the system prompt says before the optional GitHub line. */
  function PromptHead(role: string, requirements: string, resumeUrl: string): string {
    PromptIntro + role + PromptBody(requirements, resumeUrl)
  }

  /** The requirements and resume lines that follow the role. */
  function PromptBody(requirements: string, resumeUrl: string): string {
    RequirementsLabel + requirements + ResumeLabel + resumeUrl + "\n"
  }

  /**
   * The GitHub line sits right after the resume line: the prompt is the
   * prompt without a GitHub URL with exactly `GithubLine` inserted there,
   * `GitHub Profile: ` and the URL when there is one and nothing otherwise.
   */
  lemma SystemPromptGithub(p: Profile)
    ensures var bare := SystemPrompt(p.(githubUrl := ""));
      var k := |PromptHead(p.role, p.requirements, p.resumeUrl)|;
      k <= |bare| && SystemPrompt(p) == bare[..k] + GithubLine(p.githubUrl) + bare[k..]
    ensures p.githubUrl == "" ==> SystemPrompt(p) == SystemPrompt(p.(githubUrl := ""))
  {
    var head := PromptHead(p.role, p.requirements, p.resumeUrl);
    var q := p.(githubUrl := "");
    var bare := SystemPrompt(q);
    assert q.role == p.role && q.requirements == p.requirements && q.resumeUrl == p.resumeUrl;
    Regroup(PromptIntro, p.role, PromptBody(p.requirements, p.resumeUrl), GithubLine(p.githubUrl), PromptInstructions);
    Regroup(PromptIntro, p.role, PromptBody(p.requirements, p.resumeUrl), "", PromptInstructions);
    assert head + "" == head;
    assert bare == head + PromptInstructions;
    assert bare[..|head|] == head;
    assert bare[|head|..] == PromptInstructions;
  }

  /** Regrouping five concatenated parts, as the prompt lemmas need it. */
  lemma Regroup(a: string, b: string, c: string, d: string, e: string)
    ensures a + b + (c + d + e) == (a + b + c) + d + e
  {
  }

  /**
   * The message list of every request: the system prompt, then the whole
   * history in order, then exactly one closing message.
   */
  function Framed(prompt: string, history: seq<Message>, last: Message): (messages: seq<Message>)
    ensures |messages| == |history| + 2
    ensures messages[0] == Message(System, prompt)
    ensures messages[1..|history| + 1] == history
    ensures messages[|history| + 1] == last
    ensures forall i :: 0 <= i < |history| ==> messages[i + 1] == history[i]
  {
    [Message(System, prompt)] + history + [last]
  }

  /** The request that asks for the next question; its instruction depends on whether any question was asked yet. */
  function QuestionRequest(prompt: string, history: seq<Message>, questionCount: nat): (req: ChatRequest)
    ensures req.model == Model && req.maxTokens == QuestionMaxTokens
    ensures |req.messages| == |history| + 2
    ensures req.messages[0] == Message(System, prompt)
    ensures req.messages[1..|history| + 1] == history
    ensures req.messages[|history| + 1].role == User
  {
    var instruction := if questionCount == 0 then FirstQuestionInstruction else NextQuestionInstruction;
    ChatRequest(Model, Framed(prompt, history, Message(User, instruction)), QuestionMaxTokens)
  }

  /**
   * The question request closes with the welcome instruction exactly when
   * no question has been asked yet, and with the follow-up instruction
   * exactly otherwise: the two instructions differ.
   */
  lemma QuestionInstruction(prompt: string, history: seq<Message>, questionCount: nat)
    ensures var last := QuestionRequest(prompt, history, questionCount).messages[|history| + 1];
      && (last.content == FirstQuestionInstruction <==> questionCount == 0)
      && (last.content == NextQuestionInstruction <==> questionCount != 0)
  {
    assert |FirstQuestionInstruction| != |NextQuestionInstruction|;
  }

  /** The request that asks for feedback on the candidate's answer, sent as a user turn. */
  function FeedbackRequest(prompt: string, history: seq<Message>, candidateResponse: string): (req: ChatRequest)
    ensures req.model == Model && req.maxTokens == FeedbackMaxTokens
    ensures |req.messages| == |history| + 2
    ensures req.messages[0] == Message(System, prompt)
    ensures req.messages[1..|history| + 1] == history
    ensures req.messages[|history| + 1] == Message(User, candidateResponse)
  {
    ChatRequest(Model, Framed(prompt, history, Message(User, candidateResponse)), FeedbackMaxTokens)
  }

  /** The request that asks for the closing assessment with the fixed rubric. */
  function FinalRequest(prompt: string, history: seq<Message>): (req: ChatRequest)
    ensures req.model == Model && req.maxTokens == FinalFeedbackMaxTokens
    ensures |req.messages| == |history| + 2
    ensures req.messages[0] == Message(System, prompt)
    ensures req.messages[1..|history| + 1] == history
    ensures req.messages[|history| + 1] == Message(User, FinalFeedbackInstruction)
  {
    ChatRequest(Model, Framed(prompt, history, Message(User, FinalFeedbackInstruction)), FinalFeedbackMaxTokens)
  }

  /** Number of messages with the given role. */
  function CountRole(history: seq<Message>, role: Role): nat {
    if history == [] then 0
    else (if history[0].role == role then 1 else 0) + CountRole(history[1..], role)
  }

  /** Number of log entries of the given kind. */
  function CountKind(log: seq<LogEntry>, kind: LogKind): nat {
    if log == [] then 0
    else (if log[0].kind == kind then 1 else 0) + CountKind(log[1..], kind)
  }

  /** Counting messages by role distributes over concatenation. */
  lemma {:induction false} CountRoleAppend(a: seq<Message>, b: seq<Message>, role: Role)
    ensures CountRole(a + b, role) == CountRole(a, role) + CountRole(b, role)
  {
    if a == [] {
      assert a + b == b;
    } else {
      assert (a + b)[1..] == a[1..] + b;
      CountRoleAppend(a[1..], b, role);
    }
  }

  /** Counting log entries by kind distributes over concatenation. */
  lemma {:induction false} CountKindAppend(a: seq<LogEntry>, b: seq<LogEntry>, kind: LogKind)
    ensures CountKind(a + b, kind) == CountKind(a, kind) + CountKind(b, kind)
  {
    if a == [] {
      assert a + b == b;
    } else {
      assert (a + b)[1..] == a[1..] + b;
      CountKindAppend(a[1..], b, kind);
    }
  }
}
