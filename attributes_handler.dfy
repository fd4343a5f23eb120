/**
 * The serverless handler that asks the model for eight personalised
 * digital-wellbeing attributes (`api/generate-personalized-attributes.js`).
 * Unlike the classification handlers it refuses to run without a credential,
 * cleans the credential up before use, and falls back to a fixed list of
 * eight attributes.
 */
module AttributesHandler {
  import opened Wrappers
  import opened Text
  import opened Json
  import opened Proxy

  datatype Attribute = Attribute(title: string, suggestion: string)

  /** The eight attributes sent when the model's reply is not JSON or the call fails. */
  const DefaultAttributes: seq<Attribute> := [
    Attribute("Digital Focus", "Set specific goals for each tech session"),
    Attribute("No Screens Before Bed", "Stop using devices 1 hour before sleep"),
    Attribute("Intentional Usage", "Check your phone with purpose, not habit"),
    Attribute("Digital Boundaries", "Set daily limits on app usage"),
    Attribute("Mindful Consumption", "Choose content that adds value to your life"),
    Attribute("Tech Balance", "Spend equal time on digital and analog activities"),
    Attribute("Digital Wellness", "Take regular breaks from screens"),
    Attribute("Smart Habits", "Build consistent daily tech routines")
  ]

  function AttributeJson(a: Attribute): Json {
    JObject(map["title" := JString(a.title), "suggestion" := JString(a.suggestion)])
  }

  function AttributesJson(list: seq<Attribute>): (v: Json)
    ensures v.JArray? && |v.items| == |list|
    ensures forall i :: 0 <= i < |list| ==> v.items[i] == AttributeJson(list[i])
  {
    JArray(seq(|list|, i requires 0 <= i < |list| => AttributeJson(list[i])))
  }

  /** A trimmed credential starts with "Bearer" in any letter case followed by white space. */
  predicate HasBearerPrefix(s: string) {
    |s| > 6 && ToLower(s[..6]) == "bearer" && IsSpace(s[6])
  }

  /** `s.replace(/^Bearer\s+/i, "")`: the scheme word and all the white space after it removed. */
  function StripBearer(s: string): (r: string)
    ensures |r| <= |s| && r == s[|s| - |r|..]
    ensures !HasBearerPrefix(s) ==> r == s
    ensures HasBearerPrefix(s) ==> r == [] || !IsSpace(r[0])
  {
    if HasBearerPrefix(s) then TrimStart(s[6..]) else s
  }

  /** The credential the client is built with: trimmed, scheme word removed. */
  function NormalizeKey(key: string): string {
    StripBearer(Trim(key))
  }

  /** A normalised credential never starts or ends with white space, and it
      is empty only when the configured value was blank. */
  lemma {:induction false} NormalizedKeyUnpadded(key: string)
    ensures var r := NormalizeKey(key);
      && (r == [] <==> IsBlank(key))
      && (r != [] ==> !IsSpace(r[0]) && !IsSpace(r[|r| - 1]))
  {
    var t := Trim(key);
    var r := StripBearer(t);
    assert r == NormalizeKey(key);
    if HasBearerPrefix(t) {
      var rest := t[6..];
      assert r == TrimStart(rest);
      assert rest[|rest| - 1] == t[|t| - 1];
    } else {
      assert r == t;
    }
  }

  /** The scheme word and the white space after it are removed from a
      trimmed credential. */
  lemma {:induction false} StripBearerToken(scheme: string, gap: string, token: string)
    requires |scheme| == 6 && ToLower(scheme) == "bearer"
    requires gap != [] && IsBlank(gap)
    requires token != [] && !IsSpace(token[0])
    ensures StripBearer(scheme + gap + token) == token
  {
    var t := scheme + gap + token;
    assert t[..6] == scheme;
    assert t[6] == gap[0];
    assert HasBearerPrefix(t);
    assert t[6..] == gap + token;
    TrimStartBlankPrefix(gap, token);
  }

  /** A credential that starts with the scheme word does not start with white space. */
  lemma SchemeNotSpace(scheme: string)
    requires |scheme| == 6 && ToLower(scheme) == "bearer"
    ensures !IsSpace(scheme[0])
  {
    assert ToLower(scheme)[0] == LowerChar(scheme[0]) == 'b';
    LowerKeepsSpace(scheme[0]);
  }

  /** Surrounding white space, a "Bearer" scheme word in any case and the
      white space after it are all removed: what remains is the token. */
  lemma BearerTokenExtracted(before: string, scheme: string, gap: string, token: string, after: string)
    requires IsBlank(before) && IsBlank(after)
    requires |scheme| == 6 && ToLower(scheme) == "bearer"
    requires gap != [] && IsBlank(gap)
    requires token != [] && !IsSpace(token[0]) && !IsSpace(token[|token| - 1])
    ensures NormalizeKey(before + scheme + gap + token + after) == token
  {
    var t := scheme + gap + token;
    SchemeNotSpace(scheme);
    assert t[0] == scheme[0] && t[|t| - 1] == token[|token| - 1];
    assert before + scheme + gap + token + after == before + t + after;
    TrimPadded(before, t, after);
    StripBearerToken(scheme, gap, token);
  }

  const AttributesPromptHead := "Based on the user's technotype profile, generate 8 personalized digital wellbeing attributes for their skill tree.\n\n"

  const AttributesInstructions :=
    "\n\nGenerate 8 attributes that are:\n"
    + "1. Specific to this user's technotype and behavior patterns\n"
    + "2. Actionable and practical\n"
    + "3. Concise (2-4 words for title, 1 sentence for suggestion)\n"
    + "4. Relevant to digital wellbeing and technology habits\n\n"
    + "Format your response as JSON:\n{\n"
    + "  \"attributes\": [\n    {\n"
    + "      \"title\": \"Attribute Name\",\n"
    + "      \"suggestion\": \"One concise, actionable suggestion for this user\"\n"
    + "    }\n  ]\n}\n\n"
    + "Make the attributes highly personalized based on their technotype. For example:\n"
    + "- If they're a \"Digital Nomad\", focus on work-life balance and productivity\n"
    + "- If they're a \"Tech Traditionalist\", focus on gradual digital adoption\n"
    + "- If they're a \"Cyber Explorer\", focus on mindful exploration and boundaries\n\n"
    + "Each attribute should be a specific skill or habit that would benefit this particular user type."

  /** The prompt names the technotype and its summary and nothing else of the request. */
  function Prompt(technotype: Option<string>, summary: Option<string>): string {
    AttributesPromptHead
    + "User's Technotype: " + Interpolate(technotype) + "\n"
    + "Technotype Summary: " + Interpolate(summary)
    + AttributesInstructions
  }

  function Request(technotype: Option<string>, summary: Option<string>, key: string): ModelRequest {
    ModelRequest(Turbo, Prompt(technotype, summary), Temperature, Some(NormalizeKey(key)))
  }

  /** The reply once the model has answered or failed. */
  function AttributesReply(c: Completion, parse: JsonParser): (r: (nat, Json))
    ensures c.CallFailed? <==> r.0 == 500
    ensures c.Completed? ==> r.0 == 200
    ensures c.CallFailed? ==>
      r.1 == JObject(map["error" := JString(c.message), "attributes" := AttributesJson(DefaultAttributes)])
    ensures c.Completed? && parse(ContentOrEmpty(c.content)).Some? ==> r.1 == parse(ContentOrEmpty(c.content)).value
    ensures c.Completed? && parse(ContentOrEmpty(c.content)).None? ==>
      r.1 == JObject(map["attributes" := AttributesJson(DefaultAttributes)])
  {
    match c
    case CallFailed(message, _) =>
      (500, JObject(map["error" := JString(message), "attributes" := AttributesJson(DefaultAttributes)]))
    case Completed(content) =>
      match parse(ContentOrEmpty(content))
      case Some(result) => (200, result)
      case None => (200, JObject(map["attributes" := AttributesJson(DefaultAttributes)]))
  }

  /** The reply to one request. The conversation history and quiz answers of
      the body are accepted and not used. */
  function Handle(verb: string, technotype: Option<string>, summary: Option<string>,
                  history: Option<seq<Message>>, quizAnswers: Option<seq<Answer>>,
                  apiKey: Option<string>, model: Model, parse: JsonParser): (h: Handled)
    ensures verb != "POST" ==> h == MethodNotAllowed()
    ensures verb == "POST" && KeyMissing(apiKey) ==> h == MissingKey()
    ensures h.upstream.Some? <==> verb == "POST" && !KeyMissing(apiKey)
    ensures h.upstream.Some? ==>
      && h.upstream.value == Request(technotype, summary, apiKey.value)
      && (h.status, h.body) == AttributesReply(model(h.upstream.value), parse)
  {
    if verb != "POST" then MethodNotAllowed()
    else if KeyMissing(apiKey) then MissingKey()
    else
      var req := Request(technotype, summary, apiKey.value);
      var reply := AttributesReply(model(req), parse);
      Handled(Some(req), reply.0, reply.1)
  }

  /** The fallback list has eight attributes with distinct, non-empty titles
      and non-empty suggestions. */
  lemma DefaultAttributesWellFormed()
    ensures |DefaultAttributes| == 8
    ensures forall i :: 0 <= i < 8 ==> DefaultAttributes[i].title != "" && DefaultAttributes[i].suggestion != ""
    ensures forall i, j :: 0 <= i < j < 8 ==> DefaultAttributes[i].title != DefaultAttributes[j].title
  {
  }

  /** Unless the model's own JSON is passed through, every reply to a POST
      with a credential carries the eight fallback attributes. */
  lemma ReplyCarriesAttributes(c: Completion, parse: JsonParser)
    ensures var r := AttributesReply(c, parse);
      || (c.Completed? && parse(ContentOrEmpty(c.content)) == Some(r.1))
      || (r.1.JObject? && "attributes" in r.1.fields && r.1.fields["attributes"] == AttributesJson(DefaultAttributes)
          && |r.1.fields["attributes"].items| == 8)
  {
  }

  /** The answer does not depend on the history or the quiz answers sent. */
  lemma IgnoresHistoryAndAnswers(verb: string, technotype: Option<string>, summary: Option<string>,
                                 h1: Option<seq<Message>>, q1: Option<seq<Answer>>,
                                 h2: Option<seq<Message>>, q2: Option<seq<Answer>>,
                                 apiKey: Option<string>, model: Model, parse: JsonParser)
    ensures Handle(verb, technotype, summary, h1, q1, apiKey, model, parse)
         == Handle(verb, technotype, summary, h2, q2, apiKey, model, parse)
  {
  }

  /** Without a credential nothing is sent to the model, whatever the body holds. */
  lemma NoCallWithoutKey(verb: string, technotype: Option<string>, summary: Option<string>,
                         history: Option<seq<Message>>, quizAnswers: Option<seq<Answer>>,
                         model: Model, parse: JsonParser)
    ensures Handle(verb, technotype, summary, history, quizAnswers, None, model, parse).upstream.None?
    ensures Handle(verb, technotype, summary, history, quizAnswers, Some(""), model, parse).upstream.None?
  {
  }
}
