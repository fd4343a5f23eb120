/**
 * The three POST routes of the Express backend (`Backend/src/server.js`),
 * which duplicate the serverless handlers with three differences: no method
 * or credential check (the client is built once, at start-up, with the
 * configured key), a conversation prompt and fallback without a summary,
 * and error replies of the next-question route without a stack trace.
 */
module ExpressServer {
  import opened Wrappers
  import opened Json
  import opened Proxy
  import QuizHandler
  import ConversationHandler
  import NextQuestionHandler

  function QuizRequest(answers: seq<Answer>, apiKey: string): ModelRequest {
    ModelRequest(TurboPreview, QuizPrompt(answers), Temperature, Some(apiKey))
  }

  /** `POST /api/generate-technotype-quiz`. */
  function QuizRoute(answers: Option<seq<Answer>>, apiKey: string, model: Model, parse: JsonParser): (h: Handled)
    ensures h.upstream.Some? <==> answers.Some?
    ensures answers.None? ==> h.status == 500 && h.body == DefaultProfileWithDetails(UndefinedMapMessage)
    ensures h.upstream.Some? ==>
      && h.upstream.value == QuizRequest(answers.value, apiKey)
      && (h.status, h.body) == ClassificationReply(model(h.upstream.value), parse, None)
  {
    match answers
    case None => Handled(None, 500, DefaultProfileWithDetails(UndefinedMapMessage))
    case Some(list) =>
      var req := QuizRequest(list, apiKey);
      var reply := ClassificationReply(model(req), parse, None);
      Handled(Some(req), reply.0, reply.1)
  }

  /** The conversation prompt of this server: the quiz instructions, no summary asked for. */
  function ConversationPrompt(history: seq<Message>): string {
    ConversationPromptHead + Transcript(history) + ProfileInstructions
  }

  function ConversationRequest(history: seq<Message>, apiKey: string): ModelRequest {
    ModelRequest(TurboPreview, ConversationPrompt(history), Temperature, Some(apiKey))
  }

  /** `POST /api/generate-technotype-conversation`. */
  function ConversationRoute(history: Option<seq<Message>>, apiKey: string, model: Model, parse: JsonParser): (h: Handled)
    ensures h.upstream.Some? <==> history.Some?
    ensures history.None? ==> h.status == 500 && h.body == DefaultProfileWithDetails(UndefinedMapMessage)
    ensures h.upstream.Some? ==>
      && h.upstream.value == ConversationRequest(history.value, apiKey)
      && (h.status, h.body) == ClassificationReply(model(h.upstream.value), parse, None)
  {
    match history
    case None => Handled(None, 500, DefaultProfileWithDetails(UndefinedMapMessage))
    case Some(messages) =>
      var req := ConversationRequest(messages, apiKey);
      var reply := ClassificationReply(model(req), parse, None);
      Handled(Some(req), reply.0, reply.1)
  }

  /** `POST /api/generate-next-question`. */
  function NextQuestionRoute(history: Option<seq<Message>>, count: Option<int>, apiKey: string, model: Model): (h: Handled)
    ensures h.upstream.Some? <==> history.Some?
    ensures history.None? ==> h.status == 500 && h.body == JObject(map["error" := JString(UndefinedMapMessage)])
    ensures h.upstream.Some? ==> h.upstream.value == NextQuestionHandler.Request(count, history.value, apiKey)
    ensures h.upstream.Some? ==> match model(h.upstream.value)
      case Completed(content) => h.status == 200 && h.body == JString(ContentOrEmpty(content))
      case CallFailed(message, _) => h.status == 500 && h.body == JObject(map["error" := JString(message)])
  {
    match history
    case None => Handled(None, 500, JObject(map["error" := JString(UndefinedMapMessage)]))
    case Some(messages) =>
      var req := NextQuestionHandler.Request(count, messages, apiKey);
      match model(req)
      case Completed(content) => Handled(Some(req), 200, JString(ContentOrEmpty(content)))
      case CallFailed(message, _) => Handled(Some(req), 500, JObject(map["error" := JString(message)]))
  }

  /** The quiz route and the serverless quiz handler answer a POST alike. */
  lemma QuizRouteMatchesServerless(answers: Option<seq<Answer>>, apiKey: string, model: Model, parse: JsonParser)
    ensures QuizRoute(answers, apiKey, model, parse) == QuizHandler.Handle("POST", answers, Some(apiKey), model, parse)
  {
  }

  /** No route of this server checks the credential: with the array present
      the model is always called, even with an empty key. */
  lemma RoutesAlwaysCallModel(answers: seq<Answer>, history: seq<Message>, count: Option<int>,
                              apiKey: string, model: Model, parse: JsonParser)
    ensures QuizRoute(Some(answers), apiKey, model, parse).upstream.Some?
    ensures ConversationRoute(Some(history), apiKey, model, parse).upstream.Some?
    ensures NextQuestionRoute(Some(history), count, apiKey, model).upstream.Some?
  {
  }

  /** Both conversation prompts carry the same head and transcript; only the
      closing instructions differ, this server's omitting the summary. */
  lemma ConversationPromptsShareTranscript(history: seq<Message>)
    ensures var head := ConversationPromptHead + Transcript(history);
      && ConversationPrompt(history) == head + ProfileInstructions
      && ConversationHandler.Prompt(history) == head + ProfileWithSummaryInstructions
      && ProfileInstructions != ProfileWithSummaryInstructions
  {
  }

  /** For the same model outcome, the two conversation endpoints give the
      same status, and the same body except that the serverless
      parse-failure fallback adds a summary. */
  lemma ConversationRepliesDifferOnlyInSummary(c: Completion, parse: JsonParser)
    ensures var (s1, b1) := ClassificationReply(c, parse, None);
      var (s2, b2) := ClassificationReply(c, parse, Some(FallbackSummary));
      && s1 == s2
      && (c.Completed? && parse(ContentOrEmpty(c.content)).None? ==>
            b1.JObject? && b2.JObject? && b2.fields == b1.fields["summary" := JString(FallbackSummary)])
      && (!(c.Completed? && parse(ContentOrEmpty(c.content)).None?) ==> b1 == b2)
  {
  }

  /** With a credential, the next-question route and the serverless handler
      send the same request and give the same status; the route's error body
      is the handler's without the stack trace. */
  lemma NextQuestionRouteMatchesServerless(history: seq<Message>, count: Option<int>, apiKey: string,
                                           model: Model, typeErrorStack: string)
    requires apiKey != ""
    ensures var e := NextQuestionRoute(Some(history), count, apiKey, model);
      var s := NextQuestionHandler.Handle("POST", Some(history), count, Some(apiKey), model, typeErrorStack);
      && e.upstream == s.upstream && e.status == s.status
      && (e.status == 200 ==> e.body == s.body)
      && (e.status == 500 ==> e.body.fields == s.body.fields - {"stack"})
  {
  }
}
