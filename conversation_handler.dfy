/**
 * The serverless handler that classifies a finished live conversation
 * (`api/generate-technotype-conversation.js`). It differs from the quiz
 * handler in its prompt, which asks for a summary as well, and in its
 * parse-failure fallback, which carries a fixed summary.
 */
module ConversationHandler {
  import opened Wrappers
  import opened Json
  import opened Proxy

  function Prompt(history: seq<Message>): string {
    ConversationPromptHead + Transcript(history) + ProfileWithSummaryInstructions
  }

  function Request(history: seq<Message>, apiKey: Option<string>): ModelRequest {
    ModelRequest(TurboPreview, Prompt(history), Temperature, apiKey)
  }

  /** The reply to one request; as in the quiz handler, building the client
      without a credential throws first, and `history` is `None` when the
      body lacks it. */
  function Handle(verb: string, history: Option<seq<Message>>, apiKey: Option<string>,
                  model: Model, parse: JsonParser): (h: Handled)
    ensures verb != "POST" ==> h == MethodNotAllowed()
    ensures h.upstream.Some? <==> verb == "POST" && apiKey.Some? && history.Some?
    ensures verb == "POST" && apiKey.None? ==>
      h.status == 500 && h.body == DefaultProfileWithDetails(ClientKeyMissingMessage)
    ensures verb == "POST" && apiKey.Some? && history.None? ==>
      h.status == 500 && h.body == DefaultProfileWithDetails(UndefinedMapMessage)
    ensures h.upstream.Some? ==>
      && h.upstream.value == Request(history.value, apiKey)
      && (h.status, h.body) == ClassificationReply(model(h.upstream.value), parse, Some(FallbackSummary))
  {
    if verb != "POST" then MethodNotAllowed()
    else if apiKey.None? then Handled(None, 500, DefaultProfileWithDetails(ClientKeyMissingMessage))
    else match history
      case None => Handled(None, 500, DefaultProfileWithDetails(UndefinedMapMessage))
      case Some(messages) =>
        var req := Request(messages, apiKey);
        var reply := ClassificationReply(model(req), parse, Some(FallbackSummary));
        Handled(Some(req), reply.0, reply.1)
  }

  /** A summary appears in a body this handler builds itself exactly when it
      is the parse-failure fallback; the 500 body after an upstream error
      has none. */
  lemma SummaryOnlyInFallback(history: seq<Message>, apiKey: string,
                              model: Model, parse: JsonParser)
    ensures var h := Handle("POST", Some(history), Some(apiKey), model, parse);
      var c := model(Request(history, Some(apiKey)));
      && (c.CallFailed? ==> h.status == 500 && "summary" !in h.body.fields)
      && (c.Completed? && parse(ContentOrEmpty(c.content)).None? ==>
            h.status == 200 && h.body.fields["summary"] == JString(FallbackSummary) && IsProfile(h.body))
  {
  }

  /** Without a credential the model is never called and the default
      profile, without a summary, carries the client's error. */
  lemma NoCallWithoutKey(history: Option<seq<Message>>, model: Model, parse: JsonParser)
    ensures var h := Handle("POST", history, None, model, parse);
      && h.upstream.None? && h.status == 500 && IsProfile(h.body)
      && "summary" !in h.body.fields
      && h.body.fields["details"] == JString(ClientKeyMissingMessage)
  {
  }

  /** The conversation reaches the model in order, one `role: content` line
      per message, between the fixed head and the instructions. */
  lemma PromptCarriesTranscript(history: seq<Message>)
    ensures var p := Prompt(history);
      var n := |ConversationPromptHead|;
      && n + |Transcript(history)| <= |p|
      && p[n..n + |Transcript(history)|] == Transcript(history)
  {
  }
}
