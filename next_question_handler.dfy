/**
 * The serverless handler that asks the model for the next question of the
 * live conversation (`api/generate-next-question.js`). It checks the
 * credential first and sends the model's text back as a JSON string.
 */
module NextQuestionHandler {
  import opened Wrappers
  import opened Json
  import opened Proxy

  function Request(count: Option<int>, history: seq<Message>, apiKey: string): ModelRequest {
    ModelRequest(TurboPreview, NextQuestionPrompt(count, history), Temperature, Some(apiKey))
  }

  /** `{ error: e.message, stack: e.stack }` as serialised: an absent stack is dropped. */
  function ErrorBody(message: string, stack: Option<string>): (body: Json)
    ensures body.JObject? && "error" in body.fields && body.fields["error"] == JString(message)
    ensures "stack" in body.fields <==> stack.Some?
    ensures stack.Some? ==> body.fields["stack"] == JString(stack.value)
    ensures body.fields.Keys <= {"error", "stack"}
  {
    var base := map["error" := JString(message)];
    match stack
    case None => JObject(base)
    case Some(st) => JObject(base["stack" := JString(st)])
  }

  /** The reply to one request. `history` is `None` when the body lacks it;
      the TypeError then thrown carries the stack trace `typeErrorStack`. */
  function Handle(verb: string, history: Option<seq<Message>>, count: Option<int>,
                  apiKey: Option<string>, model: Model, typeErrorStack: string): (h: Handled)
    ensures verb != "POST" ==> h == MethodNotAllowed()
    ensures verb == "POST" && KeyMissing(apiKey) ==> h == MissingKey()
    ensures h.upstream.Some? <==> verb == "POST" && !KeyMissing(apiKey) && history.Some?
    ensures verb == "POST" && !KeyMissing(apiKey) && history.None? ==>
      h.status == 500 && h.body == ErrorBody(UndefinedMapMessage, Some(typeErrorStack))
    ensures h.upstream.Some? ==> h.upstream.value == Request(count, history.value, apiKey.value)
    ensures h.upstream.Some? ==> match model(h.upstream.value)
      case Completed(content) => h.status == 200 && h.body == JString(ContentOrEmpty(content))
      case CallFailed(message, stack) => h.status == 500 && h.body == ErrorBody(message, stack)
  {
    if verb != "POST" then MethodNotAllowed()
    else if KeyMissing(apiKey) then MissingKey()
    else match history
      case None => Handled(None, 500, ErrorBody(UndefinedMapMessage, Some(typeErrorStack)))
      case Some(messages) =>
        var req := Request(count, messages, apiKey.value);
        match model(req)
        case Completed(content) => Handled(Some(req), 200, JString(ContentOrEmpty(content)))
        case CallFailed(message, stack) => Handled(Some(req), 500, ErrorBody(message, stack))
  }

  /** A successful call always yields a string body, never null: a missing
      reply becomes the empty string. */
  lemma SuccessIsString(history: seq<Message>, count: Option<int>, apiKey: string,
                        model: Model, typeErrorStack: string)
    requires apiKey != ""
    requires model(Request(count, history, apiKey)).Completed?
    ensures var h := Handle("POST", Some(history), count, Some(apiKey), model, typeErrorStack);
      h.status == 200 && h.body.JString?
  {
  }

  /** Every 500 reply carries an `error` string: the upstream message, the
      TypeError's message, or the missing-credential diagnostic. */
  lemma FailureNamesError(verb: string, history: Option<seq<Message>>, count: Option<int>,
                          apiKey: Option<string>, model: Model, typeErrorStack: string)
    ensures var h := Handle(verb, history, count, apiKey, model, typeErrorStack);
      h.status == 500 ==> h.body.JObject? && "error" in h.body.fields && h.body.fields["error"].JString?
  {
  }
}
