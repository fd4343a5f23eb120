/**
 * The scripted open sequence (`src/components/ConversationalQuiz.tsx`): three
 * user-info questions (name, gender, age), then ten fixed questions. Each
 * accepted Enter appends the question and the trimmed answer to the
 * transcript and shows "processing response..." until the one-second timer
 * advances to the next question; after the tenth answer the timer hands the
 * answers and the user info to `onComplete`.
 *
 * The timer is a pending flag and a method that fires it; the typing
 * animation's completion is the method `TypingDone`.
 */
module ScriptedQuiz {
  import opened Text
  import opened Keys

  datatype Phase = UserInfoPhase | QuestionsPhase

  datatype EntryKind = QuestionEntry | AnswerEntry

  /** One line of the transcript. */
  datatype Entry = Entry(kind: EntryKind, text: string)

  datatype UserInfo = UserInfo(name: string, gender: string, age: string)

  /** The arguments of one `onComplete` call. */
  datatype Completion = Completion(answers: seq<string>, userInfo: UserInfo)

  const NameQuestion := "what's your name?"
  const GenderQuestion := "what's your gender?"
  const AgeQuestion := "what's your age?"

  /** The user-info questions, in the order their fields are collected. */
  const UserInfoQuestions: seq<string> := [NameQuestion, GenderQuestion, AgeQuestion]

  const Question1 := "describe your relationship with notifications..."
  const Question2 := "when was the last time you felt truly disconnected?"
  const Question3 := "what does digital freedom mean to you?"
  const Question4 := "how do you define authentic online presence?"
  const Question5 := "what technology scares you the most?"
  const Question6 := "describe your ideal digital day..."
  const Question7 := "what would you do with unlimited screen time?"
  const Question8 := "how do you handle digital overwhelm?"
  const Question9 := "what's your relationship with social media?"
  const Question10 := "if technology disappeared tomorrow, how would you feel?"

  /** The ten quiz questions, in order. */
  const Questions: seq<string> :=
    [Question1, Question2, Question3, Question4, Question5, Question6, Question7, Question8, Question9, Question10]

  /** Every question the sequence asks, in order. */
  const AllQuestions: seq<string> := UserInfoQuestions + Questions

  /** The user-info fields in collection order: name, gender, age. */
  function InfoValues(u: UserInfo): (r: seq<string>)
    ensures |r| == 3
  {
    [u.name, u.gender, u.age]
  }

  /** `{ ...userInfo, [userInfoFields[i]]: v }`. */
  function SetField(u: UserInfo, i: nat, v: string): (r: UserInfo)
    requires i < 3
    ensures InfoValues(r) == InfoValues(u)[i := v]
  {
    if i == 0 then u.(name := v) else if i == 1 then u.(gender := v) else u.(age := v)
  }

  /** The transcript of questions answered in order: each question followed by its answer. */
  function Interleave(questions: seq<string>, replies: seq<string>): (r: seq<Entry>)
    requires |questions| == |replies|
    ensures |r| == 2 * |questions|
  {
    if questions == [] then []
    else
      var n := |questions| - 1;
      Interleave(questions[..n], replies[..n]) + [Entry(QuestionEntry, questions[n]), Entry(AnswerEntry, replies[n])]
  }

  /** The k-th question sits at index `2k` of the transcript, its answer right after it. */
  lemma {:induction false} InterleaveAt(questions: seq<string>, replies: seq<string>, k: nat)
    requires |questions| == |replies| && k < |questions|
    ensures Interleave(questions, replies)[2 * k] == Entry(QuestionEntry, questions[k])
    ensures Interleave(questions, replies)[2 * k + 1] == Entry(AnswerEntry, replies[k])
  {
    var n := |questions| - 1;
    if k < n {
      InterleaveAt(questions[..n], replies[..n], k);
    }
  }

  lemma InterleaveSnoc(questions: seq<string>, replies: seq<string>, q: string, a: string)
    requires |questions| == |replies|
    ensures Interleave(questions + [q], replies + [a])
         == Interleave(questions, replies) + [Entry(QuestionEntry, q), Entry(AnswerEntry, a)]
  {
    assert (questions + [q])[..|questions|] == questions;
    assert (replies + [a])[..|replies|] == replies;
  }

  lemma SliceSnoc<T>(xs: seq<T>, n: nat)
    requires n < |xs|
    ensures xs[..n + 1] == xs[..n] + [xs[n]]
  {
  }

  /** A `> `-prefixed question as `getCurrentQuestionText` renders it, or ""
      past the end of the list. */
  function PromptLine(list: seq<string>, i: nat): (r: string)
    ensures i < |list| ==> r == ">  " + list[i]
    ensures r == "" <==> i >= |list|
  {
    if i < |list| then ">  " + list[i] else ""
  }

  /** The component's state: its `useState` hooks, whether the response
      timer is pending, and the `onComplete` calls made. */
  datatype ScriptState = ScriptState(
    phase: Phase,
    currentQuestion: nat,
    answers: seq<string>,
    currentInput: string,
    questionComplete: bool,
    showingResponse: bool,
    history: seq<Entry>,
    userInfo: UserInfo,
    currentUserInfoField: nat,
    advancePending: bool,
    completions: seq<Completion>)

  /** `getCurrentQuestionText()`. */
  function CurrentQuestionText(s: ScriptState): string {
    if s.phase == UserInfoPhase then PromptLine(UserInfoQuestions, s.currentUserInfoField)
    else PromptLine(Questions, s.currentQuestion)
  }

  /** How many questions have been answered, counting one whose response is showing. */
  function AnsweredCount(s: ScriptState): nat {
    if s.phase == UserInfoPhase then s.currentUserInfoField + (if s.advancePending then 1 else 0)
    else |UserInfoQuestions| + |s.answers|
  }

  /** The answers given so far: the user-info fields filled in, then the quiz answers. */
  function Replies(s: ScriptState): seq<string> {
    var n := AnsweredCount(s);
    InfoValues(s.userInfo)[..if n < 3 then n else 3] + s.answers
  }

  /** A non-blank answer with no white space at either end, as `trim` leaves it. */
  predicate Accepted(a: string) {
    a != "" && !IsSpace(a[0]) && !IsSpace(a[|a| - 1])
  }

  /** The invariant: the indices stay in their lists, the answer counts
      follow the phase, only the answered fields are filled, the transcript
      interleaves the questions asked with the answers given, every answer
      is trimmed and non-blank, and `onComplete` is called at most once, with
      the ten answers and the user info. */
  predicate Consistent(s: ScriptState) {
    && (s.phase == UserInfoPhase ==> s.currentUserInfoField < 3 && s.answers == [] && s.currentQuestion == 0)
    && (s.phase == UserInfoPhase ==>
          && (AnsweredCount(s) <= 0 ==> s.userInfo.name == "")
          && (AnsweredCount(s) <= 1 ==> s.userInfo.gender == "")
          && (AnsweredCount(s) <= 2 ==> s.userInfo.age == ""))
    && (s.phase == QuestionsPhase ==>
          s.currentUserInfoField == 2 && s.currentQuestion < |Questions|
          && |s.answers| == s.currentQuestion + (if s.showingResponse then 1 else 0))
    && (s.showingResponse <==> s.advancePending || s.completions != [])
    && (s.completions != [] ==>
          && s.phase == QuestionsPhase && !s.advancePending && s.currentQuestion == |Questions| - 1
          && s.completions == [Completion(s.answers, s.userInfo)])
    && |Replies(s)| == AnsweredCount(s) <= |AllQuestions|
    && s.history == Interleave(AllQuestions[..AnsweredCount(s)], Replies(s))
    && (forall i :: 0 <= i < |Replies(s)| ==> Accepted(Replies(s)[i]))
  }

  const Initial := ScriptState(UserInfoPhase, 0, [], "", false, false, [], UserInfo("", "", ""), 0, false, [])

  lemma InitialConsistent()
    ensures Consistent(Initial)
  {
  }

  /** The state once answer `a` is accepted: it fills the current user-info
      field or joins the answers, the question and the answer join the
      transcript, the input is cleared and the response timer is pending. */
  function AnsweredWith(s: ScriptState, a: string): ScriptState
    requires Consistent(s)
  {
    if s.phase == UserInfoPhase then
      s.(userInfo := SetField(s.userInfo, s.currentUserInfoField, a),
         history := s.history + [Entry(QuestionEntry, UserInfoQuestions[s.currentUserInfoField]), Entry(AnswerEntry, a)],
         currentInput := "", showingResponse := true, advancePending := true)
    else
      s.(answers := s.answers + [a],
         history := s.history + [Entry(QuestionEntry, Questions[s.currentQuestion]), Entry(AnswerEntry, a)],
         currentInput := "", showingResponse := true, advancePending := true)
  }

  /** Accepting an answer in the user-info phase fills the current field and
      extends the transcript. */
  lemma AnswerInfoKeeps(s: ScriptState, a: string)
    requires Consistent(s) && !s.showingResponse && s.phase == UserInfoPhase && Accepted(a)
    ensures Consistent(AnsweredWith(s, a))
  {
    var f := s.currentUserInfoField;
    var t := s.(userInfo := SetField(s.userInfo, f, a),
                history := s.history + [Entry(QuestionEntry, UserInfoQuestions[f]), Entry(AnswerEntry, a)],
                currentInput := "", showingResponse := true, advancePending := true);
    assert AnsweredWith(s, a) == t;
    assert s.completions == [] && t.completions == [];
    assert AllQuestions[f] == UserInfoQuestions[f];
    assert AnsweredCount(s) == f && AnsweredCount(t) == f + 1;
    assert Replies(s) == InfoValues(s.userInfo)[..f];
    assert Replies(t) == Replies(s) + [a];
    TranscriptGrows(s.history, Replies(s), f, a);
    forall i | 0 <= i < |Replies(t)|
      ensures Accepted(Replies(t)[i])
    {
      if i < |Replies(s)| {
        assert Replies(t)[i] == Replies(s)[i];
      }
    }
  }

  /** Accepting an answer keeps the invariant, in either phase. */
  lemma AnswerKeeps(s: ScriptState, a: string)
    requires Consistent(s) && !s.showingResponse && Accepted(a)
    ensures Consistent(AnsweredWith(s, a))
  {
    if s.phase == UserInfoPhase {
      AnswerInfoKeeps(s, a);
    } else {
      AnswerQuestionKeeps(s, a);
    }
  }

  /** Answering the n-th question extends the transcript by that question
      and its answer. */
  lemma TranscriptGrows(h: seq<Entry>, replies: seq<string>, n: nat, a: string)
    requires n < |AllQuestions| && |replies| == n
    requires h == Interleave(AllQuestions[..n], replies)
    ensures h + [Entry(QuestionEntry, AllQuestions[n]), Entry(AnswerEntry, a)]
         == Interleave(AllQuestions[..n + 1], replies + [a])
  {
    SliceSnoc(AllQuestions, n);
    InterleaveSnoc(AllQuestions[..n], replies, AllQuestions[n], a);
  }

  /** Accepting an answer in the questions phase appends it and extends the transcript. */
  lemma AnswerQuestionKeeps(s: ScriptState, a: string)
    requires Consistent(s) && !s.showingResponse && s.phase == QuestionsPhase && Accepted(a)
    ensures Consistent(AnsweredWith(s, a))
  {
    var c := s.currentQuestion;
    var n := 3 + c;
    var t := s.(answers := s.answers + [a],
                history := s.history + [Entry(QuestionEntry, Questions[c]), Entry(AnswerEntry, a)],
                currentInput := "", showingResponse := true, advancePending := true);
    assert AnsweredWith(s, a) == t;
    assert |s.answers| == c && AnsweredCount(s) == n && AnsweredCount(t) == n + 1;
    var info := InfoValues(s.userInfo)[..3];
    assert Replies(s) == info + s.answers;
    assert Replies(t) == info + (s.answers + [a]) == Replies(s) + [a];
    assert AllQuestions[n] == Questions[c];
    TranscriptGrows(s.history, Replies(s), n, a);
    forall i | 0 <= i < |Replies(t)|
      ensures Accepted(Replies(t)[i])
    {
      if i < |Replies(s)| {
        assert Replies(t)[i] == Replies(s)[i];
      }
    }
  }

  /** The response timer in the user-info phase moves to the next field, or
      from the third field to the first quiz question. */
  lemma InfoTimerKeeps(s: ScriptState)
    requires Consistent(s) && s.advancePending && s.phase == UserInfoPhase
    ensures s.currentUserInfoField < 2 ==>
      Consistent(s.(currentUserInfoField := s.currentUserInfoField + 1, questionComplete := false,
                    showingResponse := false, advancePending := false))
    ensures s.currentUserInfoField == 2 ==>
      Consistent(s.(phase := QuestionsPhase, questionComplete := false,
                    showingResponse := false, advancePending := false))
  {
    var u := InfoValues(s.userInfo);
    if s.currentUserInfoField == 2 {
      assert u[..3] == u;
    }
  }

  /** The response timer in the questions phase moves to the next question,
      or after the last one records the completion. */
  lemma QuestionTimerKeeps(s: ScriptState)
    requires Consistent(s) && s.advancePending && s.phase == QuestionsPhase
    ensures s.currentQuestion < |Questions| - 1 ==>
      Consistent(s.(currentQuestion := s.currentQuestion + 1, questionComplete := false,
                    showingResponse := false, advancePending := false))
    ensures s.currentQuestion == |Questions| - 1 ==>
      Consistent(s.(advancePending := false, completions := s.completions + [Completion(s.answers, s.userInfo)]))
  {
  }

  class ScriptedQuiz {
    var state: ScriptState

    ghost predicate Valid()
      reads this
    {
      Consistent(state)
    }

    constructor ()
      ensures Valid()
      ensures state == Initial
    {
      state := Initial;
      InitialConsistent();
    }

    /** The question's typing animation finishes; it is on screen only while
        no response is showing. */
    method TypingDone()
      requires Valid() && !state.showingResponse
      modifies this
      ensures Valid()
      ensures state == old(state).(questionComplete := true)
    {
      state := state.(questionComplete := true);
    }

    /** The Enter branch for a non-blank input: the trimmed answer goes to
        the current user-info field or to the answers, the question and the
        answer are appended to the transcript, the input is cleared and the
        response timer starts. */
    method Answer()
      requires Valid() && state.questionComplete && !state.showingResponse && !IsBlank(state.currentInput)
      modifies this
      ensures Valid()
      ensures state == AnsweredWith(old(state), Trim(old(state.currentInput)))
    {
      var s, a := state, Trim(state.currentInput);
      AnswerKeeps(s, a);
      state := AnsweredWith(s, a);
    }

    /** The key handler: ignored until the question has finished typing and
        while a response is showing; Enter on blank input does nothing, on
        other input answers with it; other keys edit the input. */
    method KeyDown(e: KeyEvent)
      requires Valid()
      modifies this
      ensures Valid()
      ensures var accepts := old(state.questionComplete) && !old(state.showingResponse);
        && (!accepts || (e.key == "Enter" && IsBlank(old(state.currentInput))) ==> state == old(state))
        && (accepts && e.key != "Enter" ==> state == old(state).(currentInput := Edit(old(state.currentInput), e)))
        && (accepts && e.key == "Enter" && !IsBlank(old(state.currentInput)) ==>
              state == AnsweredWith(old(state), Trim(old(state.currentInput))))
    {
      if !state.questionComplete || state.showingResponse {
        return;
      }
      if e.key == "Enter" {
        if Trim(state.currentInput) != "" {
          Answer();
        }
      } else {
        state := state.(currentInput := Edit(state.currentInput, e));
      }
    }

    /** The one-second response timer: the next user-info field, the first
        quiz question after the third field, the next quiz question, or,
        after the tenth answer, `onComplete` with the answers and the user
        info (the response stays on screen). */
    method ResponseTimerFires()
      requires Valid() && state.advancePending
      modifies this
      ensures Valid()
      ensures !state.advancePending
      ensures var s := old(state);
        && (s.phase == UserInfoPhase && s.currentUserInfoField < 2 ==>
              state == s.(currentUserInfoField := s.currentUserInfoField + 1, questionComplete := false,
                          showingResponse := false, advancePending := false))
        && (s.phase == UserInfoPhase && s.currentUserInfoField >= 2 ==>
              state == s.(phase := QuestionsPhase, questionComplete := false,
                          showingResponse := false, advancePending := false))
        && (s.phase == QuestionsPhase && s.currentQuestion < |Questions| - 1 ==>
              state == s.(currentQuestion := s.currentQuestion + 1, questionComplete := false,
                          showingResponse := false, advancePending := false))
        && (s.phase == QuestionsPhase && s.currentQuestion >= |Questions| - 1 ==>
              state == s.(advancePending := false, completions := s.completions + [Completion(s.answers, s.userInfo)]))
    {
      if state.phase == UserInfoPhase {
        InfoTimerKeeps(state);
        if state.currentUserInfoField < |UserInfoQuestions| - 1 {
          state := state.(currentUserInfoField := state.currentUserInfoField + 1, questionComplete := false,
                          showingResponse := false, advancePending := false);
        } else {
          state := state.(phase := QuestionsPhase, questionComplete := false,
                          showingResponse := false, advancePending := false);
        }
      } else {
        QuestionTimerKeeps(state);
        if state.currentQuestion < |Questions| - 1 {
          state := state.(currentQuestion := state.currentQuestion + 1, questionComplete := false,
                          showingResponse := false, advancePending := false);
        } else {
          state := state.(advancePending := false, completions := state.completions + [Completion(state.answers, state.userInfo)]);
        }
      }
    }
  }

  /** Whenever the question prompt is on screen (no response showing), it
      names a real question: `getCurrentQuestionText` is never "" there. */
  lemma PromptShownWhileWaiting(s: ScriptState)
    requires Consistent(s) && !s.showingResponse
    ensures CurrentQuestionText(s) != ""
    ensures s.phase == UserInfoPhase ==> CurrentQuestionText(s) == ">  " + UserInfoQuestions[s.currentUserInfoField]
    ensures s.phase == QuestionsPhase ==> CurrentQuestionText(s) == ">  " + Questions[s.currentQuestion]
  {
  }

  /** The phase switches to the quiz questions only once all three user-info
      fields hold accepted answers. */
  lemma QuestionsAfterUserInfo(s: ScriptState)
    requires Consistent(s) && s.phase == QuestionsPhase
    ensures forall i :: 0 <= i < 3 ==> Accepted(InfoValues(s.userInfo)[i])
  {
    assert forall i :: 0 <= i < 3 ==> Replies(s)[i] == InfoValues(s.userInfo)[i];
  }

  /** `onComplete` receives the ten answers typed to the ten quiz questions,
      in order, and the name, gender and age typed to the user-info
      questions, each trimmed and non-blank. */
  lemma {:induction false} CompletionCarriesTranscript(s: ScriptState)
    requires Consistent(s) && s.completions != []
    ensures |s.completions| == 1 && |s.completions[0].answers| == |Questions|
    ensures |s.history| == 2 * |AllQuestions|
    ensures forall k :: 0 <= k < |Questions| ==>
      && s.history[2 * (3 + k)] == Entry(QuestionEntry, Questions[k])
      && s.history[2 * (3 + k) + 1] == Entry(AnswerEntry, s.completions[0].answers[k])
      && Accepted(s.completions[0].answers[k])
    ensures forall i :: 0 <= i < 3 ==>
      && s.history[2 * i] == Entry(QuestionEntry, UserInfoQuestions[i])
      && s.history[2 * i + 1] == Entry(AnswerEntry, InfoValues(s.completions[0].userInfo)[i])
  {
    var r := Replies(s);
    assert AllQuestions[..AnsweredCount(s)] == AllQuestions;
    forall k | 0 <= k < |Questions|
      ensures s.history[2 * (3 + k)] == Entry(QuestionEntry, Questions[k])
      ensures s.history[2 * (3 + k) + 1] == Entry(AnswerEntry, s.answers[k])
      ensures Accepted(s.answers[k])
    {
      InterleaveAt(AllQuestions, r, 3 + k);
      assert r[3 + k] == s.answers[k];
    }
    forall i | 0 <= i < 3
      ensures s.history[2 * i] == Entry(QuestionEntry, UserInfoQuestions[i])
      ensures s.history[2 * i + 1] == Entry(AnswerEntry, InfoValues(s.userInfo)[i])
    {
      InterleaveAt(AllQuestions, r, i);
    }
  }
}
