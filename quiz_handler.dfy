/**
 * The serverless handler that classifies a completed quiz
 * (`api/generate-technotype-quiz.js`): one model call, the reply passed
 * through when it parses as JSON, a fallback profile otherwise, and a
 * default profile with status 500 when anything throws.
 */
module QuizHandler {
  import opened Wrappers
  import opened Json
  import opened Proxy

  /** The model request the handler sends for these answers. */
  function Request(answers: seq<Answer>, apiKey: Option<string>): ModelRequest {
    ModelRequest(TurboPreview, QuizPrompt(answers), Temperature, apiKey)
  }

  /** The reply to one request. The credential is not checked by the
      handler, but building the client without one throws inside the `try`
      before the body is read; `answers` is `None` when the body lacks the
      array, which throws next, still before the model is called. */
  function Handle(verb: string, answers: Option<seq<Answer>>, apiKey: Option<string>,
                  model: Model, parse: JsonParser): (h: Handled)
    ensures verb != "POST" ==> h == MethodNotAllowed()
    ensures h.upstream.Some? <==> verb == "POST" && apiKey.Some? && answers.Some?
    ensures verb == "POST" && apiKey.None? ==>
      h.status == 500 && h.body == DefaultProfileWithDetails(ClientKeyMissingMessage)
    ensures verb == "POST" && apiKey.Some? && answers.None? ==>
      h.status == 500 && h.body == DefaultProfileWithDetails(UndefinedMapMessage)
    ensures h.upstream.Some? ==>
      && h.upstream.value == Request(answers.value, apiKey)
      && (h.status, h.body) == ClassificationReply(model(h.upstream.value), parse, None)
  {
    if verb != "POST" then MethodNotAllowed()
    else if apiKey.None? then Handled(None, 500, DefaultProfileWithDetails(ClientKeyMissingMessage))
    else match answers
      case None => Handled(None, 500, DefaultProfileWithDetails(UndefinedMapMessage))
      case Some(list) =>
        var req := Request(list, apiKey);
        var reply := ClassificationReply(model(req), parse, None);
        Handled(Some(req), reply.0, reply.1)
  }

  /** Without a credential the model is never called, whatever the body,
      and the page still receives the default profile, with the client's
      error as `details`; an empty credential is handed on to the model. */
  lemma NoCallWithoutKey(answers: Option<seq<Answer>>, model: Model, parse: JsonParser)
    ensures var h := Handle("POST", answers, None, model, parse);
      && h.upstream.None? && h.status == 500 && IsProfile(h.body)
      && h.body.fields["details"] == JString(ClientKeyMissingMessage)
    ensures answers.Some? ==> Handle("POST", answers, Some(""), model, parse).upstream == Some(Request(answers.value, Some("")))
  {
  }

  /** A POST is always answered with 200 or 500, and the body is either the
      model's own parsed JSON or a profile with a non-empty technotype and
      description: the page is never left without a result. */
  lemma PostAlwaysAnswersWithProfile(answers: Option<seq<Answer>>, apiKey: Option<string>,
                                     model: Model, parse: JsonParser)
    ensures var h := Handle("POST", answers, apiKey, model, parse);
      && (h.status == 200 || h.status == 500)
      && (IsProfile(h.body) || (h.status == 200 && h.upstream.Some? &&
            parse(ContentOrEmpty(model(h.upstream.value).content)) == Some(h.body)))
  {
    if apiKey.Some? && answers.Some? {
      ClassificationAlwaysProfile(model(Request(answers.value, apiKey)), parse, None);
    }
  }

  /** When the model answers with content that is either not JSON or a
      profile, the quiz classification succeeds with a profile. */
  lemma WorkingUpstreamGivesProfile(answers: seq<Answer>, apiKey: string,
                                    model: Model, parse: JsonParser)
    requires model(Request(answers, Some(apiKey))).Completed?
    requires var text := ContentOrEmpty(model(Request(answers, Some(apiKey))).content);
      parse(text).None? || IsProfile(parse(text).value)
    ensures var h := Handle("POST", Some(answers), Some(apiKey), model, parse);
      h.status == 200 && IsProfile(h.body)
  {
  }

  /** The answers reach the model in order, one numbered line each. */
  lemma PromptListsAnswers(answers: seq<Answer>)
    ensures var p := QuizPrompt(answers);
      && |QuizPromptHead| + |NumberedAnswers(answers)| <= |p|
      && p[|QuizPromptHead|..|QuizPromptHead| + |NumberedAnswers(answers)|] == NumberedAnswers(answers)
      && p[..|QuizPromptHead|] == QuizPromptHead
  {
  }
}
