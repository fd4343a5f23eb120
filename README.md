# technotype — a verified model of the quiz core

technotype asks a visitor questions about their relationship with
technology and names their "technotype". The browser runs one of several
terminal-style quiz flows and sends the answers to a backend proxy. The
proxy asks a hosted language model for the next question or for a
classification, and falls back to fixed defaults when the model's reply is
unusable. This project models that core in Dafny:

- **Client retry policy** (`ApiClient`): `makeApiCall` as a loop over
  attempts with exponential back-off. A health probe after the last failure
  decides which error is thrown. The three exported wrappers rethrow.
- **Proxy handlers** (`Proxy`, `QuizHandler`, `ConversationHandler`,
  `NextQuestionHandler`, `AttributesHandler`, `ExpressServer`): the method
  and credential guards, the prompts built from answers and transcripts, and
  the mapping of a model reply, a parse failure or an upstream error to an
  HTTP status and a JSON body. The serverless handlers and the Express
  routes are modelled side by side, with lemmas stating where they agree and
  where they differ.
- **Browser-side archetype generator** (`ArchetypeService`): two chat calls
  in sequence with `||` defaults and a constant result on any failure.
- **Quiz flows** as classes holding the component's React state:
  - `LiveQuiz.ConversationalQuiz`: the model-driven open sequence.
  - `ScriptedQuiz.ScriptedQuiz`: the scripted three-field, ten-question
    sequence.
  - `UserInfoForm.UserInfoPrompt`: the registration form with its gender
    check.
  - `ConversationEngine.Engine`: the guided ten-question quiz.
  - `PathSelector.PathPrompt`: the two-key path menu.
  
  Each class keeps a consistency invariant. Each method states the whole
  new state.
- **Dialogue graph** (`DialogueGraph`): the constant node map of the
  archetype dialogue and its structural invariants.

Shared helpers:
- `Text`: JavaScript `trim`, `toLowerCase`, `join`, `split` and decimal
  rendering.
- `Json`: parsed values, truthiness, `String(v)`.
- `Keys`: the line editor the terminal components share.
- `Wrappers`: `Option`.

The network, the hosted model and `JSON.parse` are oracles passed in as
function parameters. Timers are modelled as counters or queues of pending
callbacks, plus a method that fires one. This applies only where the
interval between setting a timer and its firing can be observed.

Two behaviours of the code are worth stating outright:
- The credential is handled in three different ways:
  - The next-question and attributes handlers test it first. A missing or
    empty credential gets HTTP 500 with `{error}` before anything else
    happens.
  - The quiz and conversation handlers do not test it. A missing
    credential makes the client constructor throw inside their `try`, so
    they answer 500 with the default profile and the constructor's message
    as `details`. An empty credential is handed on to the model
    (`QuizHandler.NoCallWithoutKey`, `ConversationHandler.NoCallWithoutKey`).
  - The Express routes build their client once at start-up and never test
    the credential (`ExpressServer.RoutesAlwaysCallModel`).
- Classification results are not always non-empty. Any model reply that
  parses as JSON is passed through unchecked. A body built by a handler
  itself always has a non-empty technotype and description; a
  passed-through one may not. The model proves exactly that disjunction
  (`Proxy.ClassificationAlwaysProfile`, `QuizHandler.PostAlwaysAnswersWithProfile`).

## Model

| member | source | states |
|---|---|---|
| ApiClient.HttpError | src/lib/openai.ts:49-51 | the error of a non-OK reply carries `details` if truthy, else `error` if truthy, else `HTTP <status>: <statusText>`; a null body gives the TypeError of reading `details` |
| ApiClient.StatusLineCarriesStatus | src/lib/openai.ts:51 | the status-line message starts with "HTTP " and the status code can be read back from it |
| ApiClient.AttemptResult | src/lib/openai.ts:39-54 | one attempt resolves exactly when the reply is OK and its body parses; a fetch rejection or a body that fails to parse rejects with its reason; a non-OK status with a parsed body rejects with the error built from that body, status and status text |
| ApiClient.CheckServerHealth | src/lib/openai.ts:20-30 | the server counts as running exactly when the probe got a reply with an OK status; a rejected probe counts as down |
| ApiClient.BackoffStrictlyIncreasing | src/lib/openai.ts:66 | each back-off sleep is longer than every earlier one |
| ApiClient.MakeApiCall | src/lib/openai.ts:33-71 | the call satisfies the retry relation: at most `retries + 1` attempts, every attempt before the last failed, one sleep per failed attempt except the last, the first success returned, and after the last failure the probe chooses between the "not running" error and the attempt's own error; a negative retry count makes no attempt and throws "Request failed after multiple attempts" |
| ApiClient.RetryRunDeterministic | src/lib/openai.ts:38-70 | the oracle's outcomes fix the attempts, the sleeps and the result |
| ApiClient.StopsAtFirstSuccess | src/lib/openai.ts:54 | the first successful attempt ends the call: its value is returned after exactly that many attempts and one sleep fewer |
| ApiClient.ExhaustedErrorSelection | src/lib/openai.ts:56-63 | when every attempt fails, all `retries + 1` attempts are made; a failed probe yields the "not running" message, a passing probe the last attempt's own error |
| ApiClient.FailTwiceThenSucceed | src/lib/openai.ts:36-66 | with the default retries, two failures and a success make three attempts, sleep 1000 then 2000 ms, and return the third reply |
| ApiClient.AtMostThreeAttempts | src/lib/openai.ts:36-38 | with the default retries, one to three attempts are made, the sleeps are a prefix of [1000, 2000], and no sleep follows the last attempt |
| ApiClient.Rethrown | src/lib/openai.ts:77-79 | a wrapper passes a value through; it rethrows an `Error` with the same message, and any other thrown value as an `Error` with the wrapper's own message |
| ApiClient.GenerateTechnotypeFromQuiz | src/lib/openai.ts:74-81 | one retried call to the quiz endpoint with `{answers}`, then the rethrow with "Failed to generate technotype from quiz" |
| ApiClient.GenerateNextQuestion | src/lib/openai.ts:84-94 | one retried call to the next-question endpoint with the history and count, then the rethrow |
| ApiClient.GenerateTechnotypeFromConversation | src/lib/openai.ts:97-106 | one retried call to the conversation endpoint with the history, then the rethrow |
| ApiClient.WrapperKeepsMessage | src/lib/openai.ts:56-63 | when every attempt fails with an `Error`, a wrapper throws the "not running" message or the last attempt's own error, after three attempts |
| ArchetypeService.ArchetypeFrom | src/services/openai.ts:42 | the archetype is the trimmed first reply, or "The Optimizer" when that reply is missing or blank; it is never empty |
| ArchetypeService.DescriptionFrom | src/services/openai.ts:63 | the description is the second reply unchanged, or "Unable to generate description." when it is missing or empty |
| ArchetypeService.Generate | src/services/openai.ts:19-79 | the first request is always sent; a failure of either call gives the constant result; otherwise the second request names the archetype the first reply settled on, and the result pairs that archetype with the second reply's description |
| ArchetypeService.ResultNeverBlank | src/services/openai.ts:42-77 | whatever the model does, the archetype is non-empty without surrounding white space and the description is non-empty |
| ArchetypeService.FailureGivesDefault | src/services/openai.ts:65-77 | a failure of either call yields "The Optimizer" |
| Proxy.MethodNotAllowed | api/generate-technotype-quiz.js:4-6 | a non-POST request gets 405 `{error: "Method not allowed"}` and no model call |
| Proxy.MissingKey | api/generate-next-question.js:9-12 | a missing credential gets 500 with the diagnostic message and no model call |
| Proxy.NumberedAnswersInOrder | api/generate-technotype-quiz.js:18 | splitting the answer block at newlines gives back one numbered line per answer, in input order, when no answer spans lines |
| Proxy.TranscriptInOrder | api/generate-technotype-conversation.js:18 | splitting the transcript at newlines gives back one `role: content` line per message, in order |
| Proxy.FallbackProfile | api/generate-technotype-quiz.js:42-45 | the parse-failure body is "Digital Explorer" with the raw content, or the default sentence when the content is empty, plus a summary exactly when one is given; both fields are non-empty |
| Proxy.DefaultProfileWithDetails | api/generate-technotype-quiz.js:47-53 | the upstream-error body holds the message as `details` and the fixed default technotype and description, nothing else |
| Proxy.ClassificationReply | api/generate-technotype-quiz.js:36-53 | status 500 exactly on an upstream error; parseable content is returned unchanged; unparseable content gives the fallback profile |
| Proxy.ClassificationAlwaysProfile | api/generate-technotype-quiz.js:36-53 | a classification body is either the model's own parsed JSON or a profile with non-empty technotype and description; after an upstream error it is the default profile |
| QuizHandler.Handle | api/generate-technotype-quiz.js:3-55 | non-POST gets 405; a POST without a credential gets 500 with the client constructor's error as `details` and the default profile; otherwise the model is called exactly when the body has the answers, with the numbered-answer prompt, and the reply follows the classification mapping; a body without answers gets 500 with the TypeError as `details` |
| QuizHandler.NoCallWithoutKey | api/generate-technotype-quiz.js:8-13 | without a credential the model is never called, whatever the body, and the reply is a 500 default profile carrying the constructor's error; an empty credential is passed on to the model |
| QuizHandler.PostAlwaysAnswersWithProfile | api/generate-technotype-quiz.js:8-54 | a POST is answered with 200 or 500, and the body is the model's parsed JSON or a profile |
| QuizHandler.WorkingUpstreamGivesProfile | api/generate-technotype-quiz.js:36-45 | when the model answers with content that is not JSON, or is a profile, the reply is 200 with a profile |
| QuizHandler.PromptListsAnswers | api/generate-technotype-quiz.js:15-28 | the prompt holds the fixed head followed by the numbered answer block |
| ConversationHandler.Handle | api/generate-technotype-conversation.js:3-58 | as the quiz handler, including the missing-credential 500, with the transcript prompt that asks for a summary and a fallback carrying the fixed summary |
| ConversationHandler.NoCallWithoutKey | api/generate-technotype-conversation.js:8-13 | without a credential the model is never called, and the 500 default profile, with no summary, carries the constructor's error |
| ConversationHandler.SummaryOnlyInFallback | api/generate-technotype-conversation.js:40-57 | the parse-failure body carries the fixed summary and is a profile; the upstream-error body has no summary |
| ConversationHandler.PromptCarriesTranscript | api/generate-technotype-conversation.js:15-30 | the transcript sits in the prompt right after the fixed head |
| NextQuestionHandler.ErrorBody | api/generate-next-question.js:47 | the error body has the message as `error` and a `stack` field exactly when the error has a stack |
| NextQuestionHandler.Handle | api/generate-next-question.js:3-49 | non-POST gets 405; a missing or empty credential gets 500 before any call; otherwise the model is called exactly when the history is present, with the count-and-transcript prompt; success replies 200 with the content or ""; failure replies 500 with message and stack |
| NextQuestionHandler.SuccessIsString | api/generate-next-question.js:43 | a successful call always replies with a JSON string, never null |
| NextQuestionHandler.FailureNamesError | api/generate-next-question.js:44-48 | every 500 reply carries an `error` string |
| AttributesHandler.StripBearer | api/generate-personalized-attributes.js:17 | the "Bearer" scheme word, in any case, and the white space after it are removed; anything else is left alone |
| AttributesHandler.NormalizedKeyUnpadded | api/generate-personalized-attributes.js:17 | the normalised credential has no white space at either end and is empty exactly when the configured value is blank |
| AttributesHandler.StripBearerToken | api/generate-personalized-attributes.js:17 | stripping `Bearer<spaces>token` gives the token |
| AttributesHandler.BearerTokenExtracted | api/generate-personalized-attributes.js:17 | a credential padded with white space, in the form `Bearer <token>` in any case, normalises to the bare token |
| AttributesHandler.AttributesReply | api/generate-personalized-attributes.js:54-90 | status 500 exactly on an upstream error, with the message and the eight defaults; parseable content is returned unchanged; otherwise the eight defaults |
| AttributesHandler.Handle | api/generate-personalized-attributes.js:3-91 | non-POST gets 405; a missing or empty credential gets 500 with no call; otherwise the model is called with the normalised credential and the technotype-and-summary prompt |
| AttributesHandler.DefaultAttributesWellFormed | api/generate-personalized-attributes.js:62-73 | the fallback list has exactly eight attributes, with distinct non-empty titles and non-empty suggestions |
| AttributesHandler.ReplyCarriesAttributes | api/generate-personalized-attributes.js:56-90 | unless the model's parsed JSON is passed through, the reply carries the eight fallback attributes |
| AttributesHandler.IgnoresHistoryAndAnswers | api/generate-personalized-attributes.js:14-23 | the reply does not depend on the conversation history or the quiz answers sent |
| AttributesHandler.NoCallWithoutKey | api/generate-personalized-attributes.js:9-12 | without a credential, or with an empty one, the model is never called |
| ExpressServer.QuizRoute | Backend/src/server.js:116-161 | the model is called exactly when the body has the answers, with the numbered-answer prompt; the reply follows the classification mapping, without a summary |
| ExpressServer.ConversationRoute | Backend/src/server.js:164-209 | the model is called exactly when the body has the history, with a transcript prompt that asks for no summary; the fallback has no summary |
| ExpressServer.NextQuestionRoute | Backend/src/server.js:81-113 | the model is called exactly when the body has the history; success replies with the content or ""; failure replies 500 with `{error}` only |
| ExpressServer.QuizRouteMatchesServerless | Backend/src/server.js:116-161 | the quiz route answers every body as the serverless quiz handler answers a POST |
| ExpressServer.RoutesAlwaysCallModel | Backend/src/server.js:64-66 | no route checks the credential: with the body's array present the model is called, even with an empty key |
| ExpressServer.ConversationPromptsShareTranscript | Backend/src/server.js:168-181 | both conversation prompts share head and transcript and differ only in their closing instructions |
| ExpressServer.ConversationRepliesDifferOnlyInSummary | Backend/src/server.js:189-208 | for the same model outcome both conversation endpoints give the same status, and the same body except for the serverless fallback's summary |
| ExpressServer.NextQuestionRouteMatchesServerless | Backend/src/server.js:81-113 | with a credential, the route and the serverless handler send the same request with the same status; the route's error body drops the stack |
| Json.Get | src/lib/openai.ts:51 | a field is read exactly when the value is an object that has it, and what is read is that field's value |
| Text.Trim | src/components/UserInfoForm.tsx:41 | the result has no white space at either end and is empty exactly when the input is blank |
| Text.TrimPadded | src/components/UserInfoForm.tsx:44 | trimming removes exactly the white space around an unpadded string |
| Text.ToLower | src/components/UserInfoForm.tsx:44 | lower-casing keeps the length and maps each character |
| Text.TrimLowerCommute | src/components/UserInfoForm.tsx:44 | lower-casing and trimming commute |
| Text.SplitJoin | api/generate-technotype-quiz.js:18 | joining lines without newlines and splitting at newlines gives the lines back |
| Text.NatToString | api/generate-technotype-quiz.js:18 | a number renders as a non-empty string of digits with no leading zero |
| Text.DecimalRoundTrip | src/lib/openai.ts:51 | reading a rendered number back gives the number |
| Keys.DropLast | Frontend/src/components/ConversationalQuiz.tsx:103 | Backspace drops the last character and leaves the empty string empty |
| Keys.JsLengthOne | Frontend/src/components/ConversationalQuiz.tsx:104 | a key has JavaScript length one exactly when it is one character of the Basic Multilingual Plane |
| Keys.Edit | Frontend/src/components/ConversationalQuiz.tsx:102-106 | Backspace drops a character; a key of JavaScript length one without Ctrl, Alt or Meta is appended; any other key changes nothing |
| Keys.AstralKeyIgnored | Frontend/src/components/ConversationalQuiz.tsx:104 | a key outside the Basic Multilingual Plane, such as an emoji, has length two in JavaScript and is not typed |
| Keys.TypeThenBackspace | Frontend/src/components/ConversationalQuiz.tsx:102-105 | typing a character then Backspace gives the input back |
| Keys.NamedKeysIgnored | Frontend/src/components/ConversationalQuiz.tsx:104 | named keys such as "Shift" never reach the input |
| LiveQuiz.UserContentsInOrder | Frontend/src/components/ConversationalQuiz.tsx:70 | the answers are the `user` messages' contents in history order: the k-th answer is the k-th user message, at strictly increasing positions, with no user message skipped |
| LiveQuiz.AlternatingAnswers | Frontend/src/components/ConversationalQuiz.tsx:46-78 | in an alternating history there are `|h|/2` answers and the k-th is the message at index `2k+1` |
| LiveQuiz.IssueKeepsLog | Frontend/src/components/ConversationalQuiz.tsx:70-77 | issuing the call after a user message keeps the request log well formed |
| LiveQuiz.SettleKeepsLog | Frontend/src/components/ConversationalQuiz.tsx:83-85 | settling the pending call keeps the request log well formed |
| LiveQuiz.SubmitKeepsScript | Frontend/src/components/ConversationalQuiz.tsx:66-77 | a submission while every request has succeeded appends the answer, keeps the roles alternating, and asks for classification exactly at the tenth answer |
| LiveQuiz.SettleNextKeepsScript | Frontend/src/components/ConversationalQuiz.tsx:78 | a settled next question keeps the roles alternating |
| LiveQuiz.ConversationalQuiz.constructor | Frontend/src/components/ConversationalQuiz.tsx:23-47 | mounting issues the first-question call with an empty history and count 0, loading and initialising |
| LiveQuiz.ConversationalQuiz.SettleFirstQuestion | Frontend/src/components/ConversationalQuiz.tsx:45-53 | the history becomes exactly one assistant message holding the first question; on failure the error is shown; the flags are cleared |
| LiveQuiz.ConversationalQuiz.SettleNextQuestion | Frontend/src/components/ConversationalQuiz.tsx:77-85 | the question is appended as one assistant message and its index is animated; on failure the error is shown and the history is kept |
| LiveQuiz.ConversationalQuiz.SettleClassification | Frontend/src/components/ConversationalQuiz.tsx:70-85 | the profile is handed to `onComplete`, or the error is shown |
| LiveQuiz.ConversationalQuiz.Submit | Frontend/src/components/ConversationalQuiz.tsx:60-77 | exactly one user message with the answer is appended; the answer is recorded, the input cleared, and the next question (below ten answers) or the classification (from ten on) is requested on the new history |
| LiveQuiz.ConversationalQuiz.KeyDown | Frontend/src/components/ConversationalQuiz.tsx:88-107 | keys are ignored while busy and Enter on blank input changes nothing; other keys edit the input and change nothing else; Enter on non-blank input makes exactly the transition `Submit` makes with the trimmed answer (appended to history and answers, input cleared, error cleared, loading and response flags set, next request issued) |
| LiveQuiz.ConversationalQuiz.AnimationDone | Frontend/src/components/ConversationalQuiz.tsx:220-223 | the typing animation clears the animated index and nothing else |
| LiveQuiz.CompletedOnTenAnswers | Frontend/src/components/ConversationalQuiz.tsx:70-74 | when every request succeeded, a completed quiz was classified on exactly ten answers, which are the user messages at the odd indices of a twenty-message history |
| ScriptedQuiz.SetField | src/components/ConversationalQuiz.tsx:77-78 | only the current user-info field changes |
| ScriptedQuiz.InterleaveAt | src/components/ConversationalQuiz.tsx:82-86 | in the transcript, the k-th question sits at index 2k with its answer right after it |
| ScriptedQuiz.PromptLine | src/components/ConversationalQuiz.tsx:47-57 | the prompt is `>  question` inside the list and "" exactly past its end |
| ScriptedQuiz.InitialConsistent | src/components/ConversationalQuiz.tsx:12-23 | the initial state satisfies the invariant |
| ScriptedQuiz.AnswerInfoKeeps | src/components/ConversationalQuiz.tsx:75-90 | accepting a user-info answer keeps the invariant |
| ScriptedQuiz.AnswerQuestionKeeps | src/components/ConversationalQuiz.tsx:105-119 | accepting a quiz answer keeps the invariant |
| ScriptedQuiz.InfoTimerKeeps | src/components/ConversationalQuiz.tsx:93-104 | the user-info timer keeps the invariant, moving to the next field or to the questions |
| ScriptedQuiz.QuestionTimerKeeps | src/components/ConversationalQuiz.tsx:122-131 | the question timer keeps the invariant, moving on or recording the completion |
| ScriptedQuiz.ScriptedQuiz.constructor | src/components/ConversationalQuiz.tsx:12-23 | the sequence starts in the user-info phase with everything empty |
| ScriptedQuiz.ScriptedQuiz.TypingDone | src/components/ConversationalQuiz.tsx:217 | the finished typing animation sets `questionComplete` and nothing else |
| ScriptedQuiz.ScriptedQuiz.Answer | src/components/ConversationalQuiz.tsx:69-132 | the new state is exactly the accepted answer's transition: the trimmed answer fills the current field (user-info phase) or is appended to the answers (questions phase); the transcript gains exactly the question and the answer; the input is cleared and the response timer set; nothing else changes; the invariant is kept |
| ScriptedQuiz.ScriptedQuiz.KeyDown | src/components/ConversationalQuiz.tsx:66-142 | keys are ignored before the question has typed and while a response shows; Enter on blank input is ignored; Enter on other input makes exactly the transition `Answer` makes, with the trimmed input; other keys edit the input and change nothing else |
| ScriptedQuiz.ScriptedQuiz.ResponseTimerFires | src/components/ConversationalQuiz.tsx:93-131 | the timer moves to the next field, from the third field to the questions, to the next question, or after the tenth answer calls `onComplete` with the answers and the user info |
| ScriptedQuiz.PromptShownWhileWaiting | src/components/ConversationalQuiz.tsx:47-57 | whenever the prompt is on screen it names a real question, never "" |
| ScriptedQuiz.QuestionsAfterUserInfo | src/components/ConversationalQuiz.tsx:94-103 | the questions phase starts only once all three user-info fields hold accepted answers |
| ScriptedQuiz.CompletionCarriesTranscript | src/components/ConversationalQuiz.tsx:107-131 | `onComplete` is called once, with the ten trimmed, non-blank answers given to the ten questions in order and the name, gender and age given to the user-info questions |
| PathSelector.PathPrompt.constructor | src/components/PathSelector.tsx:11-13 | the prompt starts empty, without error, untyped |
| PathSelector.PathPrompt.TypingDone | src/components/PathSelector.tsx:66 | the finished menu animation enables the keys and changes nothing else |
| PathSelector.PathPrompt.KeyDown | src/components/PathSelector.tsx:26-44 | keys are ignored before the menu has typed and when their JavaScript length is not one; "1" or "2" is echoed and selects that path; any other key of length one is echoed and raises the error with its timer |
| PathSelector.PathPrompt.ErrorTimerFires | src/components/PathSelector.tsx:39-42 | the timer hides the error and clears the echo |
| PathSelector.Press | src/components/PathSelector.tsx:26-44 | a key press selects a path exactly when the menu has typed and the key is "1" or "2", and then that path; earlier selections are kept |
| PathSelector.PressAllSelects | src/components/PathSelector.tsx:29-34 | over any key sequence, the paths selected are exactly the "1" and "2" presses made once the menu had typed, in order |
| PathSelector.IgnoredKeys | src/components/PathSelector.tsx:27-35 | keys before the menu has typed, and named keys, change nothing |
| UserInfoForm.SetField | src/components/UserInfoForm.tsx:58 | only the current field changes |
| UserInfoForm.TrimFills | src/components/UserInfoForm.tsx:41-58 | a trimmed non-blank input is non-empty with no white space at either end |
| UserInfoForm.AcceptedGenderStored | src/components/UserInfoForm.tsx:42-58 | an accepted gender is stored trimmed in its own case, and its lower-cased form is a listed answer |
| UserInfoForm.AcceptKeeps | src/components/UserInfoForm.tsx:58-71 | storing an accepted value and moving to the next field keeps the invariant |
| UserInfoForm.RejectKeeps | src/components/UserInfoForm.tsx:44-50 | a gender rejection keeps the invariant |
| UserInfoForm.FrameKeeps | src/components/UserInfoForm.tsx:73-79 | edits that leave the fields and completions alone keep the invariant while error and timer agree |
| UserInfoForm.UserInfoPrompt.constructor | src/components/UserInfoForm.tsx:17-25 | the form starts at the name with everything empty |
| UserInfoForm.UserInfoPrompt.TypingDone | src/components/UserInfoForm.tsx:128 | the finished prompt animation enables the keys and changes nothing else |
| UserInfoForm.UserInfoPrompt.Submit | src/components/UserInfoForm.tsx:40-72 | a gender outside the list shows the error and starts its timer with nothing else changed; otherwise the trimmed input is stored in the current field only, the input cleared, the next field entered, and after the gender `onComplete` receives the new user info |
| UserInfoForm.UserInfoPrompt.KeyDown | src/components/UserInfoForm.tsx:37-80 | keys are ignored before the prompt has typed; Enter on blank input is ignored; Enter on other input makes exactly the submission's transition (a gender outside the list is rejected with the timed error, anything else stored trimmed and the next field entered); Backspace and printable keys edit the input and hide the error, and change nothing else |
| UserInfoForm.UserInfoPrompt.ErrorTimerFires | src/components/UserInfoForm.tsx:46-49 | the timer hides the error and clears the input |
| UserInfoForm.CompletionsComplete | src/components/UserInfoForm.tsx:64-71 | `onComplete` receives only complete registrations, and only once the gender has been accepted |
| UserInfoForm.FieldOrder | src/components/UserInfoForm.tsx:64-67 | fields fill in the order name, age, gender |
| UserInfoForm.PaddedGenderAccepted | src/components/UserInfoForm.tsx:42-44 | any capitalisation of a listed answer, padded with white space, is accepted |
| UserInfoForm.UnpaddedGenderCheck | src/components/UserInfoForm.tsx:42-44 | for input without surrounding white space, the check is a case-insensitive lookup in the list, in both directions |
| UserInfoForm.UnlistedGenderRefused | src/components/UserInfoForm.tsx:43-44 | for every input, the gender is accepted exactly when its trimmed, lower-cased form is listed, so every unlisted answer is refused however it is capitalised or padded |
| UserInfoForm.PrefixOfListedRefused | src/components/UserInfoForm.tsx:43-44 | for example, "man" is refused in every capitalisation, although the listed "m" is its prefix |
| ConversationEngine.QuestionTable | src/components/ConversationEngine.tsx:11-111 | the table has ten questions with distinct ids |
| ConversationEngine.QuestionKinds | src/components/ConversationEngine.tsx:11-111 | every slider runs from 0 to 100 in steps of 1 with three labels; every option question offers at least two options with distinct ids |
| ConversationEngine.AnswerKeeps | src/components/ConversationEngine.tsx:133-139 | recording an answer under the current question's id and setting its timer keeps the invariant |
| ConversationEngine.AdvanceKeeps | src/components/ConversationEngine.tsx:139-145 | firing the oldest advance timer keeps the invariant |
| ConversationEngine.Engine.constructor | src/components/ConversationEngine.tsx:113-131 | the quiz starts at the first question with no answers, the slider at 50, typing |
| ConversationEngine.Engine.SelectOption | src/components/ConversationEngine.tsx:133-146 | the option's id is stored under the current question's id with every other key unchanged; the selection is set; one advance timer is queued |
| ConversationEngine.Engine.ChooseThisOrThat | src/components/ConversationEngine.tsx:166-168 | a this-or-that choice does exactly what an option selection does |
| ConversationEngine.Engine.SliderChange | src/components/ConversationEngine.tsx:148-150 | the slider moves and nothing else changes |
| ConversationEngine.Engine.SliderComplete | src/components/ConversationEngine.tsx:152-164 | the current slider value is stored under the current question's id; one advance timer is queued |
| ConversationEngine.Engine.AdvanceTimerFires | src/components/ConversationEngine.tsx:139-145 | below the last question the quiz moves to the captured index + 1 (entering it if it changed); at the last it is finished; the current question never moves back or by more than one; answers are kept |
| ConversationEngine.Engine.TypingTimerFires | src/components/ConversationEngine.tsx:126-128 | the typing timer ends the typing and nothing else |
| ConversationEngine.AnswersKeyedByQuestions | src/components/ConversationEngine.tsx:134-135 | answers are stored only under ids of the table |
| ConversationEngine.RepeatedAnswersAdvanceOnce | src/components/ConversationEngine.tsx:139-141 | however many times one question is answered before its timers fire, firing them all advances the quiz by at most one question |
| DialogueGraph.StepsWithinEdges | src/data/conversationData.ts:23-234 | every option of a node leads along an edge of the reference table |
| DialogueGraph.EdgesAreSteps | src/data/conversationData.ts:23-234 | every edge of the reference table is followed by some option |
| DialogueGraph.EdgesResolve | src/data/conversationData.ts:23-234 | every option's `nextNodeId` is a key of the graph, whatever the prose |
| DialogueGraph.IdsMatchKeys | src/data/conversationData.ts:24-233 | every node's id equals its key |
| DialogueGraph.Question1Shape | src/data/conversationData.ts:58-102 | question1 has five weighted options, giving +2 to Observer, Catalyst, Weaver, Architect and Mediator in turn |
| DialogueGraph.Question2Shape | src/data/conversationData.ts:103-146 | the same layout for question2 |
| DialogueGraph.Question3Shape | src/data/conversationData.ts:147-189 | the same layout for question3 |
| DialogueGraph.ScenarioLayout | src/data/conversationData.ts:58-189 | each of the three scenarios has that layout |
| DialogueGraph.UnweightedElsewhere | src/data/conversationData.ts:24-57 | outside the scenarios no option carries weights |
| DialogueGraph.WeightLayout | src/data/conversationData.ts:24-233 | an option carries weights exactly when it belongs to a scenario; every weight is -1, 1 or 2; an option weights one or two classes and exactly one of them by 2 |
| DialogueGraph.PredecessorsOf | src/data/conversationData.ts:34-209 | the only edges into the reveal path come from results, final, question3, question2, question1, and welcome or why_classify respectively |
| DialogueGraph.RevealFollowsScenarios | src/data/conversationData.ts:34-223 | every walk from the intro that reaches class_reveal has just passed question1, question2, question3, final and results in that order, entering question1 from welcome or why_classify |
| DialogueGraph.NoStartOverAnswer | src/data/conversationData.ts:58-189 | no scenario answer reads "Start over" |
| DialogueGraph.StartOverReturnsToIntro | src/data/conversationData.ts:210-233 | every "Start over" option leads to the intro |
| DialogueGraph.ConversationDataWellFormed | src/data/conversationData.ts:23-234 | the dialogue itself resolves its edges, stores each node under its id, and returns to the intro on "Start over" |

## Left out

- Network, hosted model and `JSON.parse` are oracles: their behaviour (timeouts, SDK errors, the text of a syntax error) is folded into the outcome they return.
- Request bodies are typed as the client sends them; a body with a field of the wrong type (any TypeError other than the missing array) is not modelled.
- JSON numbers are integers only; `currentQuestionCount` and attribute bodies need no more.
- `ApiClient.MakeApiCall`: the back-off sleeps are not performed; their durations are returned in order.
- `Proxy.ClientKeyMissingMessage`: the client library is not part of this model; its constructor's error for a missing credential is taken as this constant.
- `ExpressServer.QuizRoute`, `ExpressServer.ConversationRoute`, `ExpressServer.NextQuestionRoute`: the credential is a string the client was built with at start-up; an absent credential (which makes the client constructor throw before the server starts) is not modelled. Requests with other methods get Express's default 404, not modelled.
- The Express health route, environment-file loading, logging and key printing (`Backend/src/server.js:14-78`), and port selection are configuration, not core.
- `NextQuestionHandler.Handle`: the stack trace of the TypeError thrown for a missing history is a parameter.
- `Text.ToLower`: maps only ASCII letters; the Unicode case mapping of `toLowerCase` is not modelled.
- Prompt prose: the fixed parts of the prompts are constants; the lemmas are about where the interpolated answers and transcripts sit.
- `LiveQuiz.ConversationalQuiz.SettleNextQuestion`, `SettleClassification`: the `finally` of `handleAnswer` and the `.then` that clears `showingResponse` run as one step with the settlement.
- `LiveQuiz.ConversationalQuiz.KeyDown`: `isAnimating` is never set true in the component, so the model keeps it false.
- `isBumping`/`bump` animations, the scale and zoom arithmetic on floating point, motion and rendering are presentation.
- `UserInfoForm.UserInfoPrompt.Submit`, `PathSelector.PathPrompt.KeyDown`: the 500 ms delays before `onComplete` and `onPathSelected` are made immediate.
- `UserInfoForm.UserInfoPrompt`: after the gender is accepted the component stays at the gender prompt; a further accepted gender (should the prompt finish typing again) adds another completion, which the model allows.
- `ConversationEngine.Engine`: `isTyping` gates nothing in the handlers and is modelled as a flag with its timer; rendering and the navigation link are presentation.
- `DialogueGraph.StartOverReturnsToIntro`: for arbitrary prose it needs that no scenario answer reads "Start over"; `DialogueGraph.NoStartOverAnswer` discharges that for the dialogue's own prose.
- `DialogueGraph`: the `audio` field is absent from every node; the prose of class_reveal and abilities is filled at run time by other components and is empty here; the wording of `classDescriptions` is kept but not reasoned about.
