/**
 * The browser-side client of the backend proxy: one POST per attempt, up to
 * `retries + 1` attempts with exponential back-off between them, and after
 * the last failure a health probe that decides which error is thrown.
 *
 * The network is an oracle: `fetch(request, k)` is what the k-th attempt
 * (counted from 0) observes, and `health` is what the probe observes. The
 * sleeps are not performed; the back-off delays are returned in order.
 */
module ApiClient {
  import opened Wrappers
  import opened Text
  import opened Json

  const ApiBaseUrl := "http://localhost:3001/api"
  const BackendDownMessage := "Backend server is not running. Please start the server first."
  const ExhaustedMessage := "Request failed after multiple attempts"
  const NullErrorDataMessage := "Cannot read properties of null (reading 'details')"
  const DefaultRetries := 2

  /** A value thrown or rejected by a JavaScript operation: an `Error` with its
      message, or some other value. */
  datatype Thrown = ErrorValue(message: string) | OtherValue

  /** What `await response.json()` gives: the parsed body, or the rejection
      (a syntax error when the body is not JSON). */
  datatype BodyRead = BodyParsed(value: Json) | BodyRejected(reason: Thrown)

  /** What one `fetch` observes: a rejection (network failure, the 10 second
      timeout) or an HTTP response whose body is read as JSON. */
  datatype FetchOutcome =
    | FetchRejected(reason: Thrown)
    | Response(status: nat, statusText: string, body: BodyRead)

  /** What the `GET /health` probe observes. */
  datatype HealthOutcome = HealthRejected | HealthResponse(status: nat)

  /** The settled promise of a call: resolved with a JSON value or rejected. */
  datatype CallResult = Resolved(value: Json) | Rejected(reason: Thrown)

  datatype PostRequest = PostRequest(url: string, body: Json)

  type Fetcher = (PostRequest, nat) -> FetchOutcome

  /** `response.ok`. */
  predicate Ok(status: nat) {
    200 <= status <= 299
  }

  /** The error thrown for a non-OK reply whose body parsed to `errorData`:
      its `details`, else its `error`, else the status line. */
  function HttpError(errorData: Json, status: nat, statusText: string): (e: Thrown)
    ensures errorData.JNull? ==> e == ErrorValue(NullErrorDataMessage)
    ensures !errorData.JNull? && Truthy(Get(errorData, "details")) ==>
      e == ErrorValue(ToJsString(errorData.fields["details"]))
    ensures !errorData.JNull? && !Truthy(Get(errorData, "details")) && Truthy(Get(errorData, "error")) ==>
      e == ErrorValue(ToJsString(errorData.fields["error"]))
    ensures !errorData.JNull? && !Truthy(Get(errorData, "details")) && !Truthy(Get(errorData, "error")) ==>
      e == ErrorValue("HTTP " + NatToString(status) + ": " + statusText)
  {
    if errorData.JNull? then ErrorValue(NullErrorDataMessage)
    else
      var details := Get(errorData, "details");
      var error := Get(errorData, "error");
      if Truthy(details) then ErrorValue(ToJsString(details.value))
      else if Truthy(error) then ErrorValue(ToJsString(error.value))
      else ErrorValue("HTTP " + NatToString(status) + ": " + statusText)
  }

  /** The status line of a reply whose body names no error carries the status
      code, which can be read back from it. */
  lemma StatusLineCarriesStatus(errorData: Json, status: nat, statusText: string)
    requires !errorData.JNull? && !Truthy(Get(errorData, "details")) && !Truthy(Get(errorData, "error"))
    ensures var m := HttpError(errorData, status, statusText).message;
      m[..5] == "HTTP " && DecimalValue(m[5..5 + |NatToString(status)|]) == status
  {
    var m := HttpError(errorData, status, statusText).message;
    assert m[5..5 + |NatToString(status)|] == NatToString(status);
    DecimalRoundTrip(status);
  }

  /** What one attempt (the body of the `try`) settles to. */
  function AttemptResult(o: FetchOutcome): (r: CallResult)
    ensures o.FetchRejected? ==> r == Rejected(o.reason)
    ensures o.Response? && o.body.BodyRejected? ==> r == Rejected(o.body.reason)
    ensures o.Response? && Ok(o.status) && o.body.BodyParsed? ==> r == Resolved(o.body.value)
    ensures o.Response? && !Ok(o.status) ==> r.Rejected?
    ensures o.Response? && !Ok(o.status) && o.body.BodyParsed? ==> r == Rejected(HttpError(o.body.value, o.status, o.statusText))
  {
    match o
    case FetchRejected(reason) => Rejected(reason)
    case Response(status, statusText, body) =>
      match body
      case BodyRejected(reason) => Rejected(reason)
      case BodyParsed(value) =>
        if Ok(status) then Resolved(value) else Rejected(HttpError(value, status, statusText))
  }

  /** `checkServerHealth`: true exactly when the probe got an OK reply; a
      rejected probe (network failure, 5 second timeout) counts as down. */
  function CheckServerHealth(h: HealthOutcome): (up: bool)
    ensures up <==> h.HealthResponse? && Ok(h.status)
  {
    match h
    case HealthRejected => false
    case HealthResponse(status) => Ok(status)
  }

  function Pow2(k: nat): (p: nat)
    ensures p >= 1
  {
    if k == 0 then 1 else 2 * Pow2(k - 1)
  }

  /** The sleep after failed attempt `k`: `2^k * 1000` milliseconds. */
  function Backoff(k: nat): nat {
    Pow2(k) * 1000
  }

  /** The delays of the first `n` back-off sleeps, in order. */
  function BackoffSchedule(n: nat): (s: seq<nat>)
    ensures |s| == n && forall k :: 0 <= k < n ==> s[k] == Backoff(k)
  {
    seq(n, k requires 0 <= k < n => Backoff(k))
  }

  /** Each sleep is twice as long as the one before. */
  lemma {:induction false} BackoffStrictlyIncreasing(i: nat, j: nat)
    requires i < j
    ensures Backoff(i) < Backoff(j)
  {
    if j > i + 1 {
      BackoffStrictlyIncreasing(i, j - 1);
    }
    assert Pow2(j) == 2 * Pow2(j - 1);
  }

  /** The request every attempt of one call sends. */
  function CallRequest(endpoint: string, body: Json): PostRequest {
    PostRequest(ApiBaseUrl + endpoint, body)
  }

  /** The retry policy as a relation between the oracle and what the call
      did: how many attempts it made, which sleeps it took, what it settled to. */
  predicate RetryRun(req: PostRequest, retries: int, fetch: Fetcher, health: HealthOutcome,
                     result: CallResult, attempts: nat, waits: seq<nat>)
  {
    if retries < 0 then
      attempts == 0 && waits == [] && result == Rejected(ErrorValue(ExhaustedMessage))
    else
      && 1 <= attempts <= retries + 1
      && waits == BackoffSchedule(attempts - 1)
      && (forall k :: 0 <= k < attempts - 1 ==> AttemptResult(fetch(req, k)).Rejected?)
      && var last := AttemptResult(fetch(req, attempts - 1));
         if last.Resolved? then result == last
         else
           && attempts == retries + 1
           && result == if CheckServerHealth(health) then last else Rejected(ErrorValue(BackendDownMessage))
  }

  /** `makeApiCall(endpoint, body, retries)`. */
  method MakeApiCall(endpoint: string, body: Json, retries: int, fetch: Fetcher, health: HealthOutcome)
    returns (result: CallResult, attempts: nat, waits: seq<nat>)
    ensures RetryRun(CallRequest(endpoint, body), retries, fetch, health, result, attempts, waits)
  {
    var req := CallRequest(endpoint, body);
    var attempt: nat := 0;
    waits := [];
    while attempt <= retries
      invariant attempt == 0 || attempt <= retries
      invariant waits == BackoffSchedule(attempt)
      invariant forall k :: 0 <= k < attempt ==> AttemptResult(fetch(req, k)).Rejected?
    {
      var r := AttemptResult(fetch(req, attempt));
      if r.Resolved? {
        return r, attempt + 1, waits;
      }
      if attempt == retries {
        var serverRunning := CheckServerHealth(health);
        if !serverRunning {
          return Rejected(ErrorValue(BackendDownMessage)), attempt + 1, waits;
        }
        return r, attempt + 1, waits;
      }
      waits := waits + [Backoff(attempt)];
      attempt := attempt + 1;
    }
    return Rejected(ErrorValue(ExhaustedMessage)), 0, waits;
  }

  /** The policy is deterministic: the oracle decides the attempts, the sleeps
      and the outcome. */
  lemma RetryRunDeterministic(req: PostRequest, retries: int, fetch: Fetcher, health: HealthOutcome,
                              r1: CallResult, a1: nat, w1: seq<nat>, r2: CallResult, a2: nat, w2: seq<nat>)
    requires RetryRun(req, retries, fetch, health, r1, a1, w1)
    requires RetryRun(req, retries, fetch, health, r2, a2, w2)
    ensures r1 == r2 && a1 == a2 && w1 == w2
  {
  }

  /** The call stops at the first attempt that succeeds: it resolves with that
      attempt's value, after exactly that many attempts and one sleep fewer. */
  lemma {:induction false} StopsAtFirstSuccess(req: PostRequest, retries: int, fetch: Fetcher, health: HealthOutcome,
                                               result: CallResult, attempts: nat, waits: seq<nat>, first: nat)
    requires RetryRun(req, retries, fetch, health, result, attempts, waits)
    requires first <= retries
    requires AttemptResult(fetch(req, first)).Resolved?
    requires forall k :: 0 <= k < first ==> AttemptResult(fetch(req, k)).Rejected?
    ensures attempts == first + 1 && |waits| == first
    ensures result == AttemptResult(fetch(req, first))
  {
  }

  /** When every attempt fails, the probe decides the error: an unreachable
      server gives the "not running" message, a reachable one the last
      attempt's own error. */
  lemma {:induction false} ExhaustedErrorSelection(req: PostRequest, retries: int, fetch: Fetcher, health: HealthOutcome,
                                                   result: CallResult, attempts: nat, waits: seq<nat>)
    requires retries >= 0
    requires RetryRun(req, retries, fetch, health, result, attempts, waits)
    requires forall k :: 0 <= k <= retries ==> AttemptResult(fetch(req, k)).Rejected?
    ensures attempts == retries + 1 && waits == BackoffSchedule(retries)
    ensures !CheckServerHealth(health) ==> result == Rejected(ErrorValue(BackendDownMessage))
    ensures CheckServerHealth(health) ==> result == AttemptResult(fetch(req, retries))
  {
  }

  /** With the default two retries, a call that fails twice and then succeeds
      makes three attempts, sleeps 1000 then 2000 ms, and returns the third
      reply's value. */
  lemma FailTwiceThenSucceed(req: PostRequest, fetch: Fetcher, health: HealthOutcome,
                             result: CallResult, attempts: nat, waits: seq<nat>)
    requires RetryRun(req, DefaultRetries, fetch, health, result, attempts, waits)
    requires AttemptResult(fetch(req, 0)).Rejected? && AttemptResult(fetch(req, 1)).Rejected?
    requires AttemptResult(fetch(req, 2)).Resolved?
    ensures attempts == 3 && waits == [1000, 2000]
    ensures result == AttemptResult(fetch(req, 2))
  {
    StopsAtFirstSuccess(req, DefaultRetries, fetch, health, result, attempts, waits, 2);
    assert Backoff(1) == 2000 by { assert Pow2(1) == 2; }
  }

  /** With the default retries at most three attempts are made and no sleep
      follows the last one. */
  lemma AtMostThreeAttempts(req: PostRequest, fetch: Fetcher, health: HealthOutcome,
                            result: CallResult, attempts: nat, waits: seq<nat>)
    requires RetryRun(req, DefaultRetries, fetch, health, result, attempts, waits)
    ensures 1 <= attempts <= 3 && |waits| == attempts - 1
    ensures waits <= [1000, 2000]
  {
    assert Backoff(1) == 2000 by { assert Pow2(1) == 2; }
  }

  /** The rethrow of the three exported wrappers: an `Error` keeps its
      message, any other thrown value becomes an `Error` with the wrapper's
      own message. */
  function Rethrown(r: CallResult, fallback: string): (t: CallResult)
    ensures r.Resolved? ==> t == r
    ensures r.Rejected? ==> t.Rejected? && t.reason.ErrorValue?
    ensures r.Rejected? && r.reason.ErrorValue? ==> t.reason.message == r.reason.message
    ensures r.Rejected? && r.reason.OtherValue? ==> t.reason.message == fallback
  {
    match r
    case Resolved(_) => r
    case Rejected(ErrorValue(m)) => Rejected(ErrorValue(m))
    case Rejected(OtherValue) => Rejected(ErrorValue(fallback))
  }

  /** A wrapper: one `makeApiCall` with the default retries, then `Rethrown`. */
  ghost predicate WrappedRun(req: PostRequest, fallback: string, fetch: Fetcher, health: HealthOutcome,
                       r: CallResult, attempts: nat, waits: seq<nat>)
  {
    exists inner: CallResult ::
      RetryRun(req, DefaultRetries, fetch, health, inner, attempts, waits) && r == Rethrown(inner, fallback)
  }

  datatype QuizAnswer = QuizAnswer(question: string, answer: string)
  datatype Role = User | Assistant
  datatype ConversationMessage = ConversationMessage(role: Role, content: string)

  function AnswerJson(a: QuizAnswer): Json {
    JObject(map["question" := JString(a.question), "answer" := JString(a.answer)])
  }

  function MessageJson(m: ConversationMessage): Json {
    JObject(map["role" := JString(if m.role == User then "user" else "assistant"), "content" := JString(m.content)])
  }

  function HistoryJson(history: seq<ConversationMessage>): Json {
    JArray(seq(|history|, i requires 0 <= i < |history| => MessageJson(history[i])))
  }

  const QuizEndpoint := "/generate-technotype-quiz"
  const NextQuestionEndpoint := "/generate-next-question"
  const ConversationEndpoint := "/generate-technotype-conversation"

  function QuizBody(answers: seq<QuizAnswer>): Json {
    JObject(map["answers" := JArray(seq(|answers|, i requires 0 <= i < |answers| => AnswerJson(answers[i])))])
  }

  function NextQuestionBody(history: seq<ConversationMessage>, count: int): Json {
    JObject(map["conversationHistory" := HistoryJson(history), "currentQuestionCount" := JNumber(count)])
  }

  function ConversationBody(history: seq<ConversationMessage>): Json {
    JObject(map["conversationHistory" := HistoryJson(history)])
  }

  /** `generateTechnotypeFromQuiz(answers)`. */
  method GenerateTechnotypeFromQuiz(answers: seq<QuizAnswer>, fetch: Fetcher, health: HealthOutcome)
    returns (r: CallResult, attempts: nat, waits: seq<nat>)
    ensures WrappedRun(CallRequest(QuizEndpoint, QuizBody(answers)),
                       "Failed to generate technotype from quiz", fetch, health, r, attempts, waits)
  {
    var inner;
    inner, attempts, waits := MakeApiCall(QuizEndpoint, QuizBody(answers), DefaultRetries, fetch, health);
    r := Rethrown(inner, "Failed to generate technotype from quiz");
  }

  /** `generateNextQuestion(conversationHistory, currentQuestionCount)`. */
  method GenerateNextQuestion(history: seq<ConversationMessage>, count: int, fetch: Fetcher, health: HealthOutcome)
    returns (r: CallResult, attempts: nat, waits: seq<nat>)
    ensures WrappedRun(CallRequest(NextQuestionEndpoint, NextQuestionBody(history, count)),
                       "Failed to generate next question", fetch, health, r, attempts, waits)
  {
    var inner;
    inner, attempts, waits := MakeApiCall(NextQuestionEndpoint, NextQuestionBody(history, count), DefaultRetries, fetch, health);
    r := Rethrown(inner, "Failed to generate next question");
  }

  /** `generateTechnotypeFromConversation(conversationHistory)`. */
  method GenerateTechnotypeFromConversation(history: seq<ConversationMessage>, fetch: Fetcher, health: HealthOutcome)
    returns (r: CallResult, attempts: nat, waits: seq<nat>)
    ensures WrappedRun(CallRequest(ConversationEndpoint, ConversationBody(history)),
                       "Failed to generate technotype from conversation", fetch, health, r, attempts, waits)
  {
    var inner;
    inner, attempts, waits := MakeApiCall(ConversationEndpoint, ConversationBody(history), DefaultRetries, fetch, health);
    r := Rethrown(inner, "Failed to generate technotype from conversation");
  }

  /** What a wrapper rethrows has the message of the underlying `Error`: when
      every attempt fails with an `Error`, the caller sees either the
      "not running" message or the last attempt's own message. */
  lemma WrapperKeepsMessage(req: PostRequest, fallback: string, fetch: Fetcher, health: HealthOutcome,
                            r: CallResult, attempts: nat, waits: seq<nat>)
    requires WrappedRun(req, fallback, fetch, health, r, attempts, waits)
    requires forall k :: 0 <= k <= DefaultRetries ==> AttemptResult(fetch(req, k)).Rejected?
    requires AttemptResult(fetch(req, DefaultRetries)).reason.ErrorValue?
    ensures attempts == 3 && r.Rejected?
    ensures r.reason == if CheckServerHealth(health) then AttemptResult(fetch(req, DefaultRetries)).reason
                        else ErrorValue(BackendDownMessage)
  {
    var inner :| RetryRun(req, DefaultRetries, fetch, health, inner, attempts, waits) && r == Rethrown(inner, fallback);
    ExhaustedErrorSelection(req, DefaultRetries, fetch, health, inner, attempts, waits);
  }
}
