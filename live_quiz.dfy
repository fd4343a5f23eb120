/**
 * The live conversation of the open sequence
 * (`Frontend/src/components/ConversationalQuiz.tsx`): a line editor at the
 * prompt, each submitted answer appended to the history as a `user` message,
 * then either the next question requested from the backend or, from the
 * tenth answer on, the whole history sent for classification.
 *
 * A request is split in two steps: the key press that issues it (the
 * synchronous part of `handleAnswer`), and its settlement with the wrapper's
 * outcome (the part after `await`). At most one request is in flight.
 */
module LiveQuiz {
  import opened Wrappers
  import opened Text
  import opened Keys
  import opened ApiClient

  /** How an awaited wrapper call settles: its value, or the message of the `Error` it throws. */
  datatype Reply<T> = Answered(value: T) | Failed(message: string)

  datatype Profile = Profile(technotype: string, description: string)

  /** The backend calls the component issues: `FirstQuestion` is the
      `generateNextQuestion([], 0)` made on mount, `NextQuestion` the same
      wrapper on a non-empty history, `Classify` the conversation wrapper. */
  datatype Call =
    | FirstQuestion
    | NextQuestion(history: seq<ConversationMessage>, count: nat)
    | Classify(history: seq<ConversationMessage>)

  /** The number of user answers after which the conversation is classified. */
  const QuestionLimit: nat := 10

  /** The contents of the `user` messages, in order. */
  function UserContents(h: seq<ConversationMessage>): (r: seq<string>)
    ensures |r| <= |h|
  {
    if h == [] then []
    else UserContents(h[..|h| - 1]) + (if h[|h| - 1].role == User then [h[|h| - 1].content] else [])
  }

  /** `history.filter(msg => msg.role === 'user').length`. */
  function UserCount(h: seq<ConversationMessage>): nat {
    |UserContents(h)|
  }

  lemma UserContentsAppend(h: seq<ConversationMessage>, m: ConversationMessage)
    ensures UserContents(h + [m]) == UserContents(h) + (if m.role == User then [m.content] else [])
  {
    assert (h + [m])[..|h|] == h;
  }

  /** The indices of the `user` messages, in order. */
  function UserPositions(h: seq<ConversationMessage>): seq<nat> {
    if h == [] then []
    else UserPositions(h[..|h| - 1]) + (if h[|h| - 1].role == User then [|h| - 1] else [])
  }

  /** The answers are the `user` messages' contents, in history order: the
      k-th answer is the content of the k-th user message, the positions of
      those messages strictly increase, and no user message is skipped. */
  lemma {:induction false} UserContentsInOrder(h: seq<ConversationMessage>)
    ensures |UserPositions(h)| == |UserContents(h)|
    ensures forall k :: 0 <= k < |UserPositions(h)| ==>
      && UserPositions(h)[k] < |h|
      && h[UserPositions(h)[k]].role == User
      && UserContents(h)[k] == h[UserPositions(h)[k]].content
    ensures forall k, j :: 0 <= k < j < |UserPositions(h)| ==> UserPositions(h)[k] < UserPositions(h)[j]
    ensures forall i :: 0 <= i < |h| && h[i].role == User ==> i in UserPositions(h)
  {
    if h != [] {
      var p := h[..|h| - 1];
      UserContentsInOrder(p);
      assert forall i :: 0 <= i < |p| ==> h[i] == p[i];
    }
  }

  /** Roles alternate assistant, user, assistant, ... starting with the assistant. */
  predicate Alternates(h: seq<ConversationMessage>) {
    forall i :: 0 <= i < |h| ==> h[i].role == (if i % 2 == 0 then Assistant else User)
  }

  lemma AlternatesAppend(h: seq<ConversationMessage>, m: ConversationMessage)
    requires Alternates(h)
    requires m.role == (if |h| % 2 == 0 then Assistant else User)
    ensures Alternates(h + [m])
  {
  }

  /** In an alternating history every second message is the user's: there
      are `|h| / 2` answers and the k-th sits at index `2k + 1`. */
  lemma {:induction false} AlternatingAnswers(h: seq<ConversationMessage>)
    requires Alternates(h)
    ensures UserCount(h) == |h| / 2
    ensures forall k :: 0 <= k < |h| / 2 ==> UserContents(h)[k] == h[2 * k + 1].content
  {
    if h != [] {
      var p := h[..|h| - 1];
      assert Alternates(p);
      AlternatingAnswers(p);
      assert h == p + [h[|h| - 1]];
      UserContentsAppend(p, h[|h| - 1]);
    }
  }

  /** What every issued call satisfies: a next question is asked for with the
      answer count below the limit, classification from the limit on, and
      both right after a user answer. */
  predicate CallWellFormed(c: Call) {
    match c
    case FirstQuestion => true
    case NextQuestion(h, n) => n == UserCount(h) < QuestionLimit && h != [] && h[|h| - 1].role == User
    case Classify(h) => UserCount(h) >= QuestionLimit && h != [] && h[|h| - 1].role == User
  }

  /** The request log: the first question first, every later call well
      formed, the pending call last and issued on the current history. */
  predicate CallLog(calls: seq<Call>, inFlight: Option<Call>, history: seq<ConversationMessage>) {
    && |calls| >= 1 && calls[0] == FirstQuestion
    && (forall i :: 1 <= i < |calls| ==> !calls[i].FirstQuestion? && CallWellFormed(calls[i]))
    && (inFlight.Some? ==> calls[|calls| - 1] == inFlight.value)
    && (inFlight.Some? && !inFlight.value.FirstQuestion? ==> inFlight.value.history == history)
    && (inFlight == Some(FirstQuestion) ==> history == [] && |calls| == 1)
  }

  /** What holds while every request has succeeded: the history alternates,
      ends with a question exactly when nothing is pending and nothing is
      completed, and holds at most ten answers, ten exactly once classified. */
  predicate OnScript(history: seq<ConversationMessage>, answers: seq<string>, inFlight: Option<Call>, completed: seq<Profile>) {
    && Alternates(history)
    && |answers| <= QuestionLimit
    && (|history| % 2 == 1 <==> inFlight.None? && completed == [])
    && (|answers| == QuestionLimit ==> completed != [] || (inFlight.Some? && inFlight.value.Classify?))
    && |completed| <= 1
    && (completed != [] ==> |answers| == QuestionLimit && inFlight.None?)
  }

  /** The call a submission issues on the extended history `h`. */
  function CallAfter(h: seq<ConversationMessage>): Call {
    if UserCount(h) >= QuestionLimit then Classify(h) else NextQuestion(h, UserCount(h))
  }

  lemma IssueKeepsLog(calls: seq<Call>, h: seq<ConversationMessage>)
    requires |calls| >= 1 && calls[0] == FirstQuestion
    requires forall i :: 1 <= i < |calls| ==> !calls[i].FirstQuestion? && CallWellFormed(calls[i])
    requires h != [] && h[|h| - 1].role == User
    ensures CallLog(calls + [CallAfter(h)], Some(CallAfter(h)), h)
  {
  }

  lemma SettleKeepsLog(calls: seq<Call>, c: Call, history: seq<ConversationMessage>, h: seq<ConversationMessage>)
    requires CallLog(calls, Some(c), history)
    ensures CallLog(calls, None, h)
  {
  }

  /** A submission while on script appends a user message at an odd index
      and asks for classification exactly at the tenth answer. */
  lemma SubmitKeepsScript(history: seq<ConversationMessage>, answers: seq<string>, answer: string)
    requires OnScript(history, answers, None, []) && UserContents(history) == answers
    ensures var h := history + [ConversationMessage(User, answer)];
      && OnScript(h, answers + [answer], Some(CallAfter(h)), [])
      && (CallAfter(h).Classify? <==> |answers| + 1 == QuestionLimit)
  {
    var m := ConversationMessage(User, answer);
    UserContentsAppend(history, m);
    AlternatesAppend(history, m);
  }

  lemma SettleNextKeepsScript(history: seq<ConversationMessage>, answers: seq<string>, c: Call, q: string)
    requires OnScript(history, answers, Some(c), []) && c.NextQuestion?
    ensures OnScript(history + [ConversationMessage(Assistant, q)], answers, None, [])
  {
    AlternatesAppend(history, ConversationMessage(Assistant, q));
  }

  /** The component's state: its `useState` hooks, plus the requests it
      issued and the profiles it handed to `onComplete`. */
  datatype QuizState = QuizState(
    history: seq<ConversationMessage>,
    answers: seq<string>,
    pendingInput: string,
    showingResponse: bool,
    isLoading: bool,
    isInitializing: bool,
    isAnimating: bool,
    error: Option<string>,
    animatingIndex: Option<nat>,
    /** The request awaiting its outcome, if any. */
    inFlight: Option<Call>,
    /** Every request issued, in order. */
    calls: seq<Call>,
    /** The profiles handed to `onComplete`, in order. */
    completed: seq<Profile>)

  /** The flags agree with the pending request, `isAnimating` is never set,
      the log is well formed and the answers are the user messages. */
  predicate Consistent(s: QuizState) {
    && !s.isAnimating
    && (s.isLoading <==> s.inFlight.Some?)
    && (s.isInitializing <==> s.inFlight == Some(FirstQuestion))
    && (s.showingResponse <==> s.inFlight.Some? && !s.inFlight.value.FirstQuestion?)
    && CallLog(s.calls, s.inFlight, s.history)
    && UserContents(s.history) == s.answers
  }

  /** Whether the keyboard is ignored. */
  predicate Busy(s: QuizState) {
    s.isLoading || s.isInitializing || s.isAnimating || s.showingResponse
  }

  class ConversationalQuiz {
    var state: QuizState
    /** No request has failed and no answer was typed after a completion. */
    ghost var onScript: bool

    ghost predicate Valid()
      reads this
    {
      && Consistent(state)
      && (onScript ==> OnScript(state.history, state.answers, state.inFlight, state.completed))
    }

    /** Mounting: `initializeQuiz` asks for the first question with an empty
        history and count 0. */
    constructor ()
      ensures Valid() && onScript
      ensures state.history == [] && state.answers == [] && state.pendingInput == "" && state.completed == []
      ensures state.isInitializing && state.isLoading && !state.showingResponse && state.error.None?
      ensures state.animatingIndex == Some(0)
      ensures state.inFlight == Some(FirstQuestion) && state.calls == [FirstQuestion]
    {
      state := QuizState([], [], "", false, true, true, false, None, Some(0), Some(FirstQuestion), [FirstQuestion], []);
      onScript := true;
    }

    /** The first question settles (the end of `initializeQuiz`): it becomes
        the whole history, or the failure's message is shown. */
    method SettleFirstQuestion(reply: Reply<string>)
      requires Valid() && state.inFlight == Some(FirstQuestion)
      modifies this
      ensures Valid()
      ensures state.inFlight.None? && !state.isLoading && !state.isInitializing
      ensures reply.Answered? ==> state.history == [ConversationMessage(Assistant, reply.value)]
      ensures reply.Answered? ==> state.animatingIndex == Some(0) && state.error == old(state.error)
      ensures reply.Failed? ==> state.history == old(state.history) && state.error == Some(reply.message)
      ensures reply.Failed? ==> state.animatingIndex == old(state.animatingIndex)
      ensures state.answers == old(state.answers) && state.pendingInput == old(state.pendingInput)
      ensures state.showingResponse == old(state.showingResponse) && state.isAnimating == old(state.isAnimating)
      ensures state.calls == old(state.calls) && state.completed == old(state.completed)
      ensures onScript == (old(onScript) && reply.Answered?)
    {
      match reply {
        case Answered(q) =>
          var h := [ConversationMessage(Assistant, q)];
          assert UserContents(h) == [] by {
            assert h[..0] == [];
          }
          state := state.(history := h, animatingIndex := Some(0));
        case Failed(m) =>
          state := state.(error := Some(m));
          onScript := false;
      }
      state := state.(inFlight := None, isLoading := false, isInitializing := false);
    }

    /** A later question settles (the end of `handleAnswer` below the limit):
        it is appended as an assistant message and starts typing, or the
        failure's message is shown and the history keeps the unanswered
        user message. */
    method SettleNextQuestion(reply: Reply<string>)
      requires Valid() && state.inFlight.Some? && state.inFlight.value.NextQuestion?
      modifies this
      ensures Valid()
      ensures state.inFlight.None? && !state.isLoading && !state.showingResponse
      ensures reply.Answered? ==> state.history == old(state.history) + [ConversationMessage(Assistant, reply.value)]
      ensures reply.Answered? ==> state.animatingIndex == Some(|old(state.history)|) && state.error == old(state.error)
      ensures reply.Failed? ==> state.history == old(state.history) && state.error == Some(reply.message)
      ensures reply.Failed? ==> state.animatingIndex == old(state.animatingIndex)
      ensures state.answers == old(state.answers) && state.pendingInput == old(state.pendingInput)
      ensures state.isInitializing == old(state.isInitializing) && state.isAnimating == old(state.isAnimating)
      ensures state.calls == old(state.calls) && state.completed == old(state.completed)
      ensures onScript == (old(onScript) && reply.Answered?)
    {
      var c := state.inFlight.value;
      SettleKeepsLog(state.calls, c, state.history, state.history);
      match reply {
        case Answered(q) =>
          var m := ConversationMessage(Assistant, q);
          UserContentsAppend(state.history, m);
          SettleKeepsLog(state.calls, c, state.history, state.history + [m]);
          if onScript {
            SettleNextKeepsScript(state.history, state.answers, c, q);
          }
          state := state.(history := state.history + [m], animatingIndex := Some(|state.history|));
        case Failed(m) =>
          state := state.(error := Some(m));
          onScript := false;
      }
      state := state.(inFlight := None, isLoading := false, showingResponse := false);
    }

    /** The classification request settles (the end of `handleAnswer` at the
        limit): on success its profile goes to `onComplete`; on failure the
        message is shown. */
    method SettleClassification(reply: Reply<Profile>)
      requires Valid() && state.inFlight.Some? && state.inFlight.value.Classify?
      modifies this
      ensures Valid()
      ensures state.inFlight.None? && !state.isLoading && !state.showingResponse
      ensures reply.Answered? ==> state.completed == old(state.completed) + [reply.value] && state.error == old(state.error)
      ensures reply.Failed? ==> state.completed == old(state.completed) && state.error == Some(reply.message)
      ensures state.history == old(state.history) && state.answers == old(state.answers)
      ensures state.pendingInput == old(state.pendingInput) && state.calls == old(state.calls)
      ensures state.animatingIndex == old(state.animatingIndex)
      ensures state.isInitializing == old(state.isInitializing) && state.isAnimating == old(state.isAnimating)
      ensures onScript == (old(onScript) && reply.Answered?)
    {
      SettleKeepsLog(state.calls, state.inFlight.value, state.history, state.history);
      match reply {
        case Answered(p) =>
          state := state.(completed := state.completed + [p]);
        case Failed(m) =>
          state := state.(error := Some(m));
          onScript := false;
      }
      state := state.(inFlight := None, isLoading := false, showingResponse := false);
    }

    /** `handleAnswer` up to its request: the answer is appended to the
        history and the answers, the input is cleared and the next request
        (a question below the limit, classification at it) is issued. */
    method Submit(answer: string)
      requires Valid() && !Busy(state)
      modifies this
      ensures Valid()
      ensures var h := old(state.history) + [ConversationMessage(User, answer)];
        && state.history == h && state.answers == old(state.answers) + [answer]
        && state.inFlight == Some(CallAfter(h)) && state.calls == old(state.calls) + [CallAfter(h)]
      ensures state.pendingInput == "" && state.showingResponse && state.isLoading && state.error.None?
      ensures state.completed == old(state.completed) && state.animatingIndex == old(state.animatingIndex)
      ensures state.isInitializing == old(state.isInitializing) && state.isAnimating == old(state.isAnimating)
      ensures onScript == (old(onScript) && old(state.completed) == [])
    {
      var h := state.history + [ConversationMessage(User, answer)];
      var m := ConversationMessage(User, answer);
      UserContentsAppend(state.history, m);
      IssueKeepsLog(state.calls, h);
      if onScript && state.completed == [] {
        SubmitKeepsScript(state.history, state.answers, answer);
      }
      onScript := onScript && state.completed == [];
      state := state.(answers := state.answers + [answer], pendingInput := "", showingResponse := true,
                      isLoading := true, error := None,
                      history := h, calls := state.calls + [CallAfter(h)], inFlight := Some(CallAfter(h)));
    }

    /** The key handler: ignored while busy; Enter on non-blank input submits
        the trimmed answer, Enter on blank input does nothing; other keys edit
        the pending input. */
    method KeyDown(e: KeyEvent)
      requires Valid()
      modifies this
      ensures Valid()
      ensures Busy(old(state)) || (e.key == "Enter" && IsBlank(old(state.pendingInput))) ==>
        state == old(state) && onScript == old(onScript)
      ensures !Busy(old(state)) && e.key != "Enter" ==>
        state == old(state).(pendingInput := Edit(old(state.pendingInput), e)) && onScript == old(onScript)
      ensures var answer := Trim(old(state.pendingInput));
        var h := old(state.history) + [ConversationMessage(User, answer)];
        !Busy(old(state)) && e.key == "Enter" && !IsBlank(old(state.pendingInput)) ==>
        && state.history == h && state.answers == old(state.answers) + [answer]
        && state.inFlight == Some(CallAfter(h)) && state.calls == old(state.calls) + [CallAfter(h)]
        && state.pendingInput == "" && state.showingResponse && state.isLoading && state.error.None?
        && state.completed == old(state.completed) && state.animatingIndex == old(state.animatingIndex)
        && state.isInitializing == old(state.isInitializing) && state.isAnimating == old(state.isAnimating)
        && onScript == (old(onScript) && old(state.completed) == [])
    {
      if Busy(state) {
        return;
      }
      if e.key == "Enter" {
        var answer := Trim(state.pendingInput);
        if answer != "" {
          Submit(answer);
        }
      } else {
        state := state.(pendingInput := Edit(state.pendingInput, e));
      }
    }

    /** The typing animation of the newest question finishes. */
    method AnimationDone()
      requires Valid()
      modifies this
      ensures Valid()
      ensures state == old(state).(animatingIndex := None, isAnimating := false)
      ensures onScript == old(onScript)
    {
      state := state.(animatingIndex := None, isAnimating := false);
    }
  }

  /** In a run where every request succeeded, a completed quiz was classified
      on exactly ten answers, which are the user messages at the odd indices
      of a twenty-message history. */
  lemma CompletedOnTenAnswers(q: ConversationalQuiz)
    requires q.Valid() && q.onScript && q.state.completed != []
    ensures |q.state.answers| == QuestionLimit && |q.state.history| == 2 * QuestionLimit
    ensures forall k :: 0 <= k < QuestionLimit ==> q.state.answers[k] == q.state.history[2 * k + 1].content
  {
    AlternatingAnswers(q.state.history);
  }
}
