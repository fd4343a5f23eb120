/**
 * What the serverless handlers and the Express routes of the backend proxy
 * share: the request entities, the call to the hosted model (an oracle), the
 * rendering of answers and transcripts into prompts, and the mapping of the
 * model's reply (or its failure) to a classification response.
 */
module Proxy {
  import opened Wrappers
  import opened Text
  import opened Json

  datatype Role = User | Assistant

  /** `${msg.role}`. */
  function RoleName(r: Role): string {
    match r
    case User => "user"
    case Assistant => "assistant"
  }

  datatype Message = Message(role: Role, content: string)
  datatype Answer = Answer(question: string, answer: string)

  /** One chat-completion request: model identifier, the single user prompt,
      the temperature and the credential the client was built with. */
  datatype ModelRequest = ModelRequest(model: string, prompt: string, temperature: real, apiKey: Option<string>)

  /** What the model call settles to: a reply whose first choice has `content`
      (possibly null), or a thrown error with its message and stack. */
  datatype Completion = Completed(content: Option<string>) | CallFailed(message: string, stack: Option<string>)

  type Model = ModelRequest -> Completion

  /** `JSON.parse`: the parsed value, or `None` when it throws. */
  type JsonParser = string -> Option<Json>

  /** What a handler did: the model request it sent, if any, and the HTTP reply. */
  datatype Handled = Handled(upstream: Option<ModelRequest>, status: nat, body: Json)

  const TurboPreview := "gpt-4-turbo-preview"
  const Turbo := "gpt-4-turbo"
  const Temperature: real := 0.7

  const DefaultTechnotype := "Digital Explorer"
  const DefaultDescription := "A technology enthusiast who embraces digital innovation and adapts quickly to new tools and platforms."
  const FallbackSummary := "A curious explorer who thrives on digital innovation."
  const MissingKeyMessage := "OPENAI_API_KEY is missing in environment variables!"

  /** The error the client library's constructor throws when it is given no
      credential; the library itself is not part of this model. */
  const ClientKeyMissingMessage := "The OPENAI_API_KEY environment variable is missing or empty; either provide it, or instantiate the OpenAI client with an apiKey option, like new OpenAI({ apiKey: 'My API Key' })."

  /** The TypeError a handler throws when the request body lacks the array it maps over. */
  const UndefinedMapMessage := "Cannot read properties of undefined (reading 'map')"

  /** `${v}` for a body field that may be `undefined`. */
  function Interpolate(v: Option<string>): string
  {
    v.GetOr("undefined")
  }

  /** The instructions that close a quiz or Express conversation prompt:
      a name and a description, as a JSON object with two fields. */
  const ProfileInstructions :=
    "\n\nGenerate a technotype result with:\n"
    + "1. A technotype name (e.g., \"Digital Nomad\", \"Tech Traditionalist\", \"Cyber Explorer\")\n"
    + "2. A detailed description of this technotype (2-3 paragraphs)\n\n"
    + "Format your response as JSON:\n{\n"
    + "  \"technotype\": \"Technotype Name\",\n"
    + "  \"description\": \"Detailed description...\"\n}"

  /** The same instructions with a third item, a one-sentence summary. */
  const ProfileWithSummaryInstructions :=
    "\n\nGenerate a technotype result with:\n"
    + "1. A technotype name (e.g., \"Digital Nomad\", \"Tech Traditionalist\", \"Cyber Explorer\")\n"
    + "2. A detailed description of this technotype (2-3 paragraphs)\n"
    + "3. A brief, engaging, one-sentence summary of the technotype for use as a subtitle\n\n"
    + "Format your response as JSON:\n{\n"
    + "  \"technotype\": \"Technotype Name\",\n"
    + "  \"description\": \"Detailed description...\",\n"
    + "  \"summary\": \"One-sentence summary...\"\n}"

  const QuizPromptHead := "Based on the following quiz answers, generate a technotype personality profile:\n\nQuiz Answers:\n"
  const ConversationPromptHead := "Based on the following conversation, generate a technotype personality profile:\n\nConversation:\n"

  /** The classification prompt for quiz answers, shared by the serverless
      handler and the Express route. */
  function QuizPrompt(answers: seq<Answer>): string {
    QuizPromptHead + NumberedAnswers(answers) + ProfileInstructions
  }

  const NextQuestionIntro :=
    "You are an AI conducting a technology personality assessment conversation. \n"
    + "The goal is to understand the user's relationship with technology.\n"
    + "You have asked "

  const NextQuestionInstructions :=
    "\n\nGenerate ONE engaging question that will help build the user's technotype profile. \n"
    + "The question should be:\n"
    + "- Concise and easy to answer (1-2 sentences max)\n"
    + "- Relevant to the conversation so far\n"
    + "- Thought-provoking but not too complex\n"
    + "- Have a stoic, logical, slightly robotic tone\n"
    + "- Focused on technology habits, preferences, or feelings\n\n"
    + "Respond with ONLY the next question, and nothing else. Do not include any commentary, analysis, or extra lines. Just the question."

  /** `${currentQuestionCount}` for a count that may be `undefined`. */
  function CountText(count: Option<int>): string {
    match count
    case Some(n) => IntToString(n)
    case None => "undefined"
  }

  /** The prompt that asks for the next question of the live conversation,
      shared by the serverless handler and the Express route. */
  function NextQuestionPrompt(count: Option<int>, history: seq<Message>): string {
    NextQuestionIntro + CountText(count) + " questions so far.\n\nPrevious conversation:\n"
    + Transcript(history) + NextQuestionInstructions
  }

  /** The 405 reply to any method other than POST. */
  function MethodNotAllowed(): (h: Handled)
    ensures h.upstream.None? && h.status == 405
    ensures h.body == JObject(map["error" := JString("Method not allowed")])
  {
    Handled(None, 405, JObject(map["error" := JString("Method not allowed")]))
  }

  /** The 500 reply sent before any client exists when the credential is absent or empty. */
  function MissingKey(): (h: Handled)
    ensures h.upstream.None? && h.status == 500
    ensures h.body == JObject(map["error" := JString(MissingKeyMessage)])
  {
    Handled(None, 500, JObject(map["error" := JString(MissingKeyMessage)]))
  }

  /** `!process.env.OPENAI_API_KEY`: absent or empty. */
  predicate KeyMissing(apiKey: Option<string>) {
    apiKey.None? || apiKey.value == ""
  }

  /** `completion.choices[0].message.content || ''`. */
  function ContentOrEmpty(content: Option<string>): string
  {
    content.GetOr("")
  }

  /** `${index + 1}. ${answer.question}: ${answer.answer}`. */
  function NumberedLine(n: nat, a: Answer): string {
    NatToString(n) + ". " + a.question + ": " + a.answer
  }

  function NumberedLines(answers: seq<Answer>): (lines: seq<string>)
    ensures |lines| == |answers|
    ensures forall i :: 0 <= i < |answers| ==> lines[i] == NumberedLine(i + 1, answers[i])
  {
    seq(|answers|, i requires 0 <= i < |answers| => NumberedLine(i + 1, answers[i]))
  }

  /** The answers, numbered from 1, one per line. */
  function NumberedAnswers(answers: seq<Answer>): string {
    Join(NumberedLines(answers), "\n")
  }

  /** `${msg.role}: ${msg.content}`. */
  function TranscriptLine(m: Message): string {
    RoleName(m.role) + ": " + m.content
  }

  function TranscriptLines(history: seq<Message>): (lines: seq<string>)
    ensures |lines| == |history|
    ensures forall i :: 0 <= i < |history| ==> lines[i] == TranscriptLine(history[i])
  {
    seq(|history|, i requires 0 <= i < |history| => TranscriptLine(history[i]))
  }

  /** The history, one `role: content` line per message. */
  function Transcript(history: seq<Message>): string {
    Join(TranscriptLines(history), "\n")
  }

  predicate NoNewline(s: string) {
    '\n' !in s
  }

  lemma NatToStringNoNewline(n: nat)
    ensures NoNewline(NatToString(n))
  {
  }

  /** The answer block of a quiz prompt holds the answers in input order,
      numbered from 1: reading it line by line gives `n. question: answer`
      for the n-th answer, provided no answer spans several lines. */
  lemma NumberedAnswersInOrder(answers: seq<Answer>)
    requires |answers| >= 1
    requires forall i :: 0 <= i < |answers| ==> NoNewline(answers[i].question) && NoNewline(answers[i].answer)
    ensures var lines := Split(NumberedAnswers(answers), '\n');
      |lines| == |answers| &&
      forall i :: 0 <= i < |answers| ==> lines[i] == NatToString(i + 1) + ". " + answers[i].question + ": " + answers[i].answer
  {
    var lines := NumberedLines(answers);
    forall i | 0 <= i < |lines|
      ensures '\n' !in lines[i]
    {
      NatToStringNoNewline(i + 1);
    }
    SplitJoin(lines, '\n');
  }

  /** The transcript holds one `role: content` line per message, in history
      order, provided no message spans several lines. */
  lemma TranscriptInOrder(history: seq<Message>)
    requires |history| >= 1
    requires forall i :: 0 <= i < |history| ==> NoNewline(history[i].content)
    ensures var lines := Split(Transcript(history), '\n');
      |lines| == |history| &&
      forall i :: 0 <= i < |history| ==> lines[i] == RoleName(history[i].role) + ": " + history[i].content
  {
    var lines := TranscriptLines(history);
    forall i | 0 <= i < |lines|
      ensures '\n' !in lines[i]
    {
      assert lines[i] == RoleName(history[i].role) + ": " + history[i].content;
    }
    SplitJoin(lines, '\n');
  }

  /** A classification body: `technotype` and `description` are non-empty strings. */
  predicate IsProfile(body: Json) {
    && body.JObject?
    && "technotype" in body.fields && body.fields["technotype"].JString? && body.fields["technotype"].s != ""
    && "description" in body.fields && body.fields["description"].JString? && body.fields["description"].s != ""
  }

  /** The parse-failure body: the fixed label, the raw content as description
      (the fixed sentence when the content is empty), and an optional summary. */
  function FallbackProfile(content: string, summary: Option<string>): (body: Json)
    ensures IsProfile(body)
    ensures body.fields["technotype"] == JString(DefaultTechnotype)
    ensures content != "" ==> body.fields["description"] == JString(content)
    ensures content == "" ==> body.fields["description"] == JString(DefaultDescription)
    ensures summary.None? <==> "summary" !in body.fields
    ensures summary.Some? ==> body.fields["summary"] == JString(summary.value)
    ensures body.fields.Keys == {"technotype", "description"} + (if summary.Some? then {"summary"} else {})
  {
    var base := map["technotype" := JString(DefaultTechnotype),
                    "description" := JString(if content != "" then content else DefaultDescription)];
    match summary
    case None => JObject(base)
    case Some(s) => JObject(base["summary" := JString(s)])
  }

  /** The 500 body after an upstream error: the message as `details` and the
      fixed default profile. */
  function DefaultProfileWithDetails(message: string): (body: Json)
    ensures IsProfile(body)
    ensures body.fields == map["details" := JString(message),
                               "technotype" := JString(DefaultTechnotype),
                               "description" := JString(DefaultDescription)]
  {
    JObject(map["details" := JString(message),
                "technotype" := JString(DefaultTechnotype),
                "description" := JString(DefaultDescription)])
  }

  /** The reply of a classification handler once the model has answered or
      failed: parseable content verbatim, else the fallback profile; on an
      upstream error a 500 with the default profile. */
  function ClassificationReply(c: Completion, parse: JsonParser, summary: Option<string>): (r: (nat, Json))
    ensures c.CallFailed? <==> r.0 == 500
    ensures c.Completed? ==> r.0 == 200
    ensures c.CallFailed? ==> r.1 == DefaultProfileWithDetails(c.message)
    ensures c.Completed? && parse(ContentOrEmpty(c.content)).Some? ==> r.1 == parse(ContentOrEmpty(c.content)).value
    ensures c.Completed? && parse(ContentOrEmpty(c.content)).None? ==>
      r.1 == FallbackProfile(ContentOrEmpty(c.content), summary)
  {
    match c
    case CallFailed(message, _) => (500, DefaultProfileWithDetails(message))
    case Completed(content) =>
      var text := ContentOrEmpty(content);
      match parse(text)
      case Some(result) => (200, result)
      case None => (200, FallbackProfile(text, summary))
  }

  /** Whatever the model does, a classification reply is either the model's
      own parsed JSON (status 200) or a body whose technotype and description
      are non-empty; when the model failed it is exactly the default profile. */
  lemma ClassificationAlwaysProfile(c: Completion, parse: JsonParser, summary: Option<string>)
    ensures var r := ClassificationReply(c, parse, summary);
      || (r.0 == 200 && c.Completed? && parse(ContentOrEmpty(c.content)) == Some(r.1))
      || IsProfile(r.1)
    ensures c.CallFailed? ==> var body := ClassificationReply(c, parse, summary).1;
      body.fields["technotype"] == JString(DefaultTechnotype) &&
      body.fields["description"] == JString(DefaultDescription)
  {
  }
}
