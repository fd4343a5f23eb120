/**
 * The browser-side archetype generator (`src/services/openai.ts`): two chat
 * requests in sequence, the first naming an archetype and the second
 * describing it, with fixed defaults for a missing reply and for any failure.
 */
module ArchetypeService {
  import opened Wrappers
  import opened Text

  datatype QuizAnswer = QuizAnswer(id: string, answer: string)

  /** A chat-completion request with a system and a user message. */
  datatype ChatRequest = ChatRequest(model: string, system: string, user: string, maxTokens: nat, temperature: real)

  /** A reply whose first choice's content may be missing, or a thrown error. */
  datatype ChatOutcome = ChatReply(content: Option<string>) | ChatFailed

  type Chat = ChatRequest -> ChatOutcome

  datatype Archetype = Archetype(archetype: string, description: string)

  /** The result together with the requests sent, in order. */
  datatype Generated = Generated(result: Archetype, sent: seq<ChatRequest>)

  const ChatModel := "gpt-3.5-turbo"
  const ChatTemperature: real := 0.7
  const DefaultArchetype := "The Optimizer"
  const NoDescription := "Unable to generate description."
  const FailureResult := Archetype("The Optimizer", "Unable to generate description at this time.")

  const ArchetypeSystem :=
    "You are a digital archetype analyzer. Based on the quiz answers, determine the most fitting digital archetype. \n"
    + "          Choose from these archetypes: The Optimizer, The Skeptic, The Seeker, The Unplugger.\n"
    + "          Return ONLY the archetype name, nothing else."

  const DescriptionSystem :=
    "You are a digital archetype analyzer. Generate a unique, insightful description of a digital archetype that reflects their relationship with technology. Keep it concise (2-3 sentences) and engaging."

  function AnswerLines(answers: seq<QuizAnswer>): (lines: seq<string>)
    ensures |lines| == |answers|
    ensures forall i :: 0 <= i < |answers| ==> lines[i] == answers[i].id + ": " + answers[i].answer
  {
    seq(|answers|, i requires 0 <= i < |answers| => answers[i].id + ": " + answers[i].answer)
  }

  /** The first request: the answers one per line, at most 50 tokens back. */
  function ArchetypeRequest(answers: seq<QuizAnswer>): ChatRequest {
    ChatRequest(ChatModel, ArchetypeSystem,
      "Based on these quiz answers, what is the most fitting digital archetype?\n" + Join(AnswerLines(answers), "\n"),
      50, ChatTemperature)
  }

  /** The second request: the chosen archetype and the answers separated by commas, at most 150 tokens back. */
  function DescriptionRequest(archetype: string, answers: seq<QuizAnswer>): ChatRequest {
    ChatRequest(ChatModel, DescriptionSystem,
      "Generate a unique description for the digital archetype: " + archetype
        + ". Consider these quiz answers in the description: " + Join(AnswerLines(answers), ", "),
      150, ChatTemperature)
  }

  /** `content?.trim() || "The Optimizer"`. */
  function ArchetypeFrom(content: Option<string>): (a: string)
    ensures a != ""
    ensures content.Some? && !IsBlank(content.value) ==> a == Trim(content.value)
    ensures content.None? || IsBlank(content.value) ==> a == DefaultArchetype
  {
    match content
    case Some(text) => if Trim(text) != "" then Trim(text) else DefaultArchetype
    case None => DefaultArchetype
  }

  /** `content || "Unable to generate description."`: the reply kept as it is when non-empty. */
  function DescriptionFrom(content: Option<string>): (d: string)
    ensures d != ""
    ensures content.Some? && content.value != "" ==> d == content.value
    ensures content.None? || content.value == "" ==> d == NoDescription
  {
    match content
    case Some(text) => if text != "" then text else NoDescription
    case None => NoDescription
  }

  /** One run of the generator against the chat oracle. */
  function Generate(answers: seq<QuizAnswer>, chat: Chat): (g: Generated)
    ensures 1 <= |g.sent| <= 2 && g.sent[0] == ArchetypeRequest(answers)
    ensures chat(g.sent[0]).ChatFailed? ==> g == Generated(FailureResult, g.sent[..1])
    ensures chat(g.sent[0]).ChatReply? ==>
      && |g.sent| == 2
      && g.sent[1] == DescriptionRequest(ArchetypeFrom(chat(g.sent[0]).content), answers)
      && (chat(g.sent[1]).ChatFailed? ==> g.result == FailureResult)
      && (chat(g.sent[1]).ChatReply? ==>
            g.result == Archetype(ArchetypeFrom(chat(g.sent[0]).content), DescriptionFrom(chat(g.sent[1]).content)))
  {
    var first := ArchetypeRequest(answers);
    match chat(first)
    case ChatFailed => Generated(FailureResult, [first])
    case ChatReply(c1) =>
      var archetype := ArchetypeFrom(c1);
      var second := DescriptionRequest(archetype, answers);
      match chat(second)
      case ChatFailed => Generated(FailureResult, [first, second])
      case ChatReply(c2) => Generated(Archetype(archetype, DescriptionFrom(c2)), [first, second])
  }

  /** Whatever the model does, the caller gets a non-empty archetype without
      surrounding white space and a non-empty description. */
  lemma ResultNeverBlank(answers: seq<QuizAnswer>, chat: Chat)
    ensures var r := Generate(answers, chat).result;
      && r.archetype != "" && r.description != ""
      && !IsSpace(r.archetype[0]) && !IsSpace(r.archetype[|r.archetype| - 1])
  {
  }

  /** The description is asked for the archetype the first reply settled on,
      so a failure of either call yields the default archetype. */
  lemma FailureGivesDefault(answers: seq<QuizAnswer>, chat: Chat)
    requires chat(ArchetypeRequest(answers)).ChatFailed?
      || chat(DescriptionRequest(ArchetypeFrom(chat(ArchetypeRequest(answers)).content), answers)).ChatFailed?
    ensures Generate(answers, chat).result.archetype == DefaultArchetype
  {
  }
}
