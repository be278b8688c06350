# Interview agent backend: a verified model

This project models the core of an AI interview backend. An **interview agent** runs one interview in one room. It keeps:

- a conversation history of chat messages;
- a question counter;
- an interaction log: an audit trail of every request, answer and error, each entry stamped with the question counter.

Each operation of the agent sends one chat-completion request and updates that state in place. The operations are: ask the next question, give feedback on the candidate's answer, and produce the final assessment. A process-wide **registry** maps room names to agents. Four HTTP routes look an agent up and drive these operations:

- `/question`;
- `/response`;
- `/final-feedback`;
- `/conversation-log`.

The project is organised as follows:

- `conversation.dfy` (module `Conversation`) defines the value types. These are messages, log entries, the completion request and its outcome, the system prompt, and the three request builders.
- `session.dfy` (module `Session`) is the agent's state as a value. It gives each operation as a function of that state and of the completion outcome. It also holds the invariant that ties history, counter and log together, and the lemmas that every operation (and every sequence of operations) keeps it.
- `agent.dfy` (module `Agent`) is the `InterviewAgent` class. Its fields are updated in place. Each method is proved equal to its transition in `Session`, and each of the three operation methods is proved to keep the invariant.
- `registry.dfy` (module `Registry`) is the `AgentRegistry` class wrapping a `map` from room name to agent. It also holds the deferred first question scheduled at start-up.
- `routes.dfy` (module `Routes`) holds the dispatch decisions of the four HTTP handlers, each returning a `Response` value.

The completion endpoint is a function parameter `endpoint: ChatRequest -> Completion`. Every contract therefore names the exact request an operation sends, and covers both outcomes (`Completed` and `Failed`) for all endpoints.

## Model

| member | source | states |
|---|---|---|
| Conversation.SystemPrompt | interview-backend/src/services/cerebras.js:20-37 | The prompt (`generateSystemPrompt`) opens with the fixed interviewer sentence, and the role follows it immediately. |
| Conversation.SystemPromptGithub | interview-backend/src/services/cerebras.js:21-36 | The prompt is the prompt without a GitHub URL, with the GitHub line inserted right after the resume line. That line is `GitHub Profile: ` and the URL, or nothing for an empty URL (line 25). |
| Conversation.Framed | interview-backend/src/services/cerebras.js:57-66 | Every request's message list is the system prompt, then the whole history in order, then exactly one closing message. |
| Conversation.QuestionRequest | interview-backend/src/services/cerebras.js:55-80 | The question request uses model `llama3.1-8b` and a 200-token ceiling. It sends the prompt, the whole history, then one user instruction. |
| Conversation.QuestionInstruction | interview-backend/src/services/cerebras.js:60-65 | The closing instruction is the welcome wording if and only if no question was asked yet, and the follow-up wording if and only if one was. |
| Conversation.FeedbackRequest | interview-backend/src/services/cerebras.js:116-131 | The feedback request uses a 150-token ceiling. It sends the prompt, the whole history, then the candidate's text as a user turn. |
| Conversation.FinalRequest | interview-backend/src/services/cerebras.js:164-188 | The final request uses a 500-token ceiling. It sends the prompt, the whole history, then the fixed assessment rubric as a user turn. |
| Session.Logged | interview-backend/src/services/cerebras.js:39-47 | `logInteraction` on values: history and counter unchanged, the old log kept as a prefix, and exactly one new entry at the end, stamped with the current counter. |
| Session.QuestionAsked | interview-backend/src/services/cerebras.js:89-98 | The success tail of `askQuestion`: the question is appended as an assistant turn and the counter goes up by one. AI_QUESTION is logged stamped with the incremented counter and the model name. |
| Session.FeedbackGiven | interview-backend/src/services/cerebras.js:140-148 | The success tail of `provideFeedback`: the user turn then the assistant turn are appended, the counter is unchanged and AI_FEEDBACK is logged. |
| Session.Ask | interview-backend/src/services/cerebras.js:53-107 | `askQuestion` on values: REQUEST_QUESTION is logged first. It returns exactly when the endpoint answered, and the counter rises by one exactly then. The log gains two entries, AI_QUESTION on success and ERROR otherwise, and the failure is rethrown. |
| Session.Respond | interview-backend/src/services/cerebras.js:110-157 | `provideFeedback` on values: the result is the endpoint's text or the fixed fallback, and the counter never changes. The log gains CANDIDATE_RESPONSE and REQUEST_FEEDBACK, then AI_FEEDBACK on success or ERROR otherwise. |
| Session.Conclude | interview-backend/src/services/cerebras.js:160-216 | `generateFinalFeedback` on values: the result is the endpoint's text or the fixed closing text, and history and counter are unchanged. The log gains REQUEST_FINAL_FEEDBACK, then FINAL_FEEDBACK on success or ERROR otherwise. |
| Session.FreshInv | interview-backend/src/services/cerebras.js:14-17 | The fresh state (empty history, counter 0, empty log) satisfies the invariant and is not yet an open session. |
| Session.LoggedKeeps | interview-backend/src/services/cerebras.js:39-47 | Appending any entry other than AI_QUESTION or AI_FEEDBACK, stamped with the current counter, keeps the invariant and only extends the state. An open session stays open unless the entry is INTERVIEW_ENDED. |
| Session.AskEffect | interview-backend/src/services/cerebras.js:68-107 | On success: one assistant message is appended, the counter goes up by 1, REQUEST_QUESTION then AI_QUESTION are logged, and the question is returned. On failure: history and counter are unchanged, REQUEST_QUESTION then ERROR are logged, and the failure is rethrown. |
| Session.RespondEffect | interview-backend/src/services/cerebras.js:110-157 | The counter never changes. On success: the user turn then the assistant turn are appended, and the feedback is returned. On failure: the history is unchanged, ERROR is logged, and the fixed fallback text is returned. |
| Session.ConcludeEffect | interview-backend/src/services/cerebras.js:160-216 | History and counter are never changed. FINAL_FEEDBACK records, as the number of interactions, the log length just before it is appended. On failure the fixed closing text is returned. |
| Session.QuestionTurn | interview-backend/src/services/cerebras.js:90-93 | Appending the question keeps the history consistent with the counter one higher. |
| Session.AnsweredTurn | interview-backend/src/services/cerebras.js:141-144 | Appending an answered turn keeps the history consistent and counts one more user turn. |
| Session.AssistantTextsSnoc | interview-backend/src/services/cerebras.js:90-93 | Pushing a message onto the history adds its text to the assistant texts exactly when it is an assistant turn. |
| Session.AiTextsSnoc | interview-backend/src/services/cerebras.js:40-47 | Appending a log entry adds its content to the AI texts exactly when it is an AI_QUESTION or AI_FEEDBACK entry. |
| Session.LogAppend | interview-backend/src/services/cerebras.js:40-47 | A stamped entry appended to a consistent log keeps the per-kind counts, the ascending stamps, the first entry and the INTERVIEW_ENDED count. |
| Session.StampsBounded | interview-backend/src/services/cerebras.js:44 | In a consistent state the log stamps are ordered between any two entries, and none exceeds the question counter. |
| Session.QuestionAskedKeeps | interview-backend/src/services/cerebras.js:89-98 | The successful end of asking keeps the invariant (the question text is both the new assistant turn and the new AI_QUESTION entry) and the session open, and only extends the state. |
| Session.FeedbackGivenKeeps | interview-backend/src/services/cerebras.js:140-148 | The successful end of feedback keeps the invariant (the feedback text is both the new assistant turn and the new AI_FEEDBACK entry) and the session open, and only extends the state. |
| Session.AskKeeps | interview-backend/src/services/cerebras.js:53-107 | Asking, whatever the endpoint answers, keeps the invariant and the session open, and only grows history, log and counter. |
| Session.ReceivedKeeps | interview-backend/src/services/cerebras.js:112-122 | Logging the candidate's answer and then the feedback request keeps the invariant and the session open, and only extends the log. |
| Session.RespondKeeps | interview-backend/src/services/cerebras.js:110-157 | Feedback, whatever the endpoint answers, keeps the invariant and the session open, and only grows the state. |
| Session.ConcludeKeeps | interview-backend/src/services/cerebras.js:160-216 | The final assessment, whatever the endpoint answers, keeps the invariant and the session open, and only grows the state. |
| Session.ApplyKeeps | interview-backend/src/services/cerebras.js:53-256 | Any single operation keeps the invariant, only extends the state, and raises the counter by one exactly when a question was produced. |
| Session.RunKeeps | interview-backend/src/services/cerebras.js:14-17 | Across any sequence of operations from any consistent state, history and log only grow by appending. The counter rises by exactly the number of questions produced, and the number of assistant messages equals questions plus answered turns. |
| Agent.InterviewAgent.constructor | interview-backend/src/services/cerebras.js:8-18 | The session parameters are stored, `maxQuestions` is 10, history and log are empty and the counter is 0. |
| Agent.InterviewAgent.LogInteraction | interview-backend/src/services/cerebras.js:39-51 | Exactly one entry is appended at the end of the log, stamped with the current counter; history and counter are unchanged. |
| Agent.InterviewAgent.AskQuestion | interview-backend/src/services/cerebras.js:53-108 | The new state and the answer are those of `Session.Ask` for the question request built from the old history and counter. The invariant is kept and the state only grows. |
| Agent.InterviewAgent.ProvideFeedback | interview-backend/src/services/cerebras.js:110-158 | The new state and the feedback are those of `Session.Respond` for the feedback request. The invariant is kept and the state only grows. |
| Agent.InterviewAgent.GenerateFinalFeedback | interview-backend/src/services/cerebras.js:160-217 | The new state and the text are those of `Session.Conclude` for the final request. The invariant is kept and the state only grows. |
| Agent.InterviewAgent.GetConversationLog | interview-backend/src/services/cerebras.js:219-221 | Returns the agent's current log, as a value, and changes nothing. |
| Registry.AgentRegistry.constructor | interview-backend/src/services/cerebras.js:5 | The registry starts empty. |
| Registry.AgentRegistry.NoAgentTwice | interview-backend/src/services/cerebras.js:224-226 | No agent is held under two room names. |
| Registry.AgentRegistry.StartInterviewAgent | interview-backend/src/services/cerebras.js:224-232 | A fresh agent with the configured parameters replaces whatever the room held. Its log is exactly one INTERVIEW_STARTED entry. |
| Registry.FirstQuestionTimer | interview-backend/src/services/cerebras.js:234-241 | The deferred first question is one `AskQuestion` whose failure is swallowed; the agent stays consistent. |
| Registry.AgentRegistry.GetAgent | interview-backend/src/services/cerebras.js:246-248 | Finds an agent if and only if the room is registered, and then returns the agent registered for it. |
| Registry.AgentRegistry.RemoveAgent | interview-backend/src/services/cerebras.js:250-256 | A present agent gets INTERVIEW_ENDED appended and the room is forgotten. An absent room is a no-op. Every other agent is unchanged. |
| Routes.Response.Status | interview-backend/src/routes/agent.js:29-58 | 404 exactly for not-found, 500 exactly for a server error, 200 otherwise. |
| Routes.HandleQuestion | interview-backend/src/routes/agent.js:17-60 | An unknown room gives 404 with no agent touched. Otherwise the agent asks: a thrown failure becomes 500, and success returns the question with the old counter + 1. Other rooms are untouched. |
| Routes.HandleResponse | interview-backend/src/routes/agent.js:62-108 | An unknown room gives 404. Otherwise the result of `ProvideFeedback`, fallback included, is returned, and the route never answers 500. |
| Routes.HandleFinalFeedback | interview-backend/src/routes/agent.js:110-186 | An unknown room gives 404. Otherwise the final feedback is generated and the room removed, so later lookups fail. The reported interaction count is the live log's length, INTERVIEW_ENDED included. |
| Routes.HandleConversationLog | interview-backend/src/routes/agent.js:188-209 | 404 if and only if the room is unknown. Otherwise the whole log and its length are returned, and nothing changes. |

The invariant (`Session.Inv`) says:

- the history holds no system message;
- every user turn is followed by an assistant turn;
- the number of assistant messages is the counter plus the number of user turns;
- the log holds one AI_QUESTION per question and one AI_FEEDBACK per answered turn;
- its stamps never decrease and never run ahead of the counter;
- the log mirrors the history: the texts of its AI_QUESTION and AI_FEEDBACK entries, in log order, are exactly the texts of the assistant turns, in history order.

The registry's invariant (`Registry.AgentRegistry.Valid`) says that each held agent satisfies this invariant, sits under its own room name, and has a log that opens with INTERVIEW_STARTED and contains no INTERVIEW_ENDED.

## Left out

- The HTTP call to the completion endpoint (axios, the API key, the URL and the parsing of `choices[0]`) is the `endpoint` parameter. A failed call, a missing key and a malformed body all become `Failed`.
- A completion whose content is missing (`message.content` undefined) is not modelled: `Completed` always carries a string.
- The token-usage object and upstream error bodies are opaque strings in log metadata.
- The sampling temperatures (0.7, 0.6, 0.5) and the `stream: false` flag are floating-point or transport settings with no behaviour in the code. Model and `max_tokens` are kept in `ChatRequest`.
- Timestamps (`new Date().toISOString()`), request durations and all console output are clock and I/O. Log entries and responses carry no timestamp.
- Registry.FirstQuestionTimer: the 3000 ms delay and its race with a manual `/question` are not modelled. Every operation is atomic, and the deferred question is an explicit call.
- `maxQuestions` is stored but never read, so nothing enforces it.
- An undefined `candidateResponse` in `/response` is not modelled; the candidate text is always a string.
- `responseLength` (the candidate text's `.length`) counts sequence elements, not UTF-16 code units.
- The 500 branches of `/response` and `/conversation-log` cannot be reached in the model: `ProvideFeedback` never fails and a log read cannot throw. Likewise the 500 branch of `/final-feedback` is unreachable, because missing content is not modelled.
- The system prompt is built once, in the constructor, rather than on each request. The fields it is built from never change, so every request carries the same prompt.
- Registry.AgentRegistry.Valid does not carry the fact that a held agent's prompt is `SystemPrompt` of its parameters. Only the constructor and `StartInterviewAgent` state it. For an agent reached through the registry, the route contracts name its `systemPrompt` field. Restating the prompt text in the registry invariant puts the long prompt literals into every registry and route proof, which then exceed the resource limit.
- Agent.InterviewAgent.GetConversationLog returns the log as a value, not the live array the source hands out. `/final-feedback` reproduces the effect of that aliasing by reading the agent's log field after the removal, so its count includes INTERVIEW_ENDED.
- The request bodies of the routes (`participantIdentity` in `/final-feedback`) are only logged by the source, so they are not modelled.
- The LiveKit token route, file uploads and the Express server setup (`livekit.js`, `upload.js`, `server.js`) are not part of this model.
