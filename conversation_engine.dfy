/**
 * The guided digital-wellbeing quiz (`src/components/ConversationEngine.tsx`):
 * a fixed table of ten questions answered by choosing an option, by a
 * this-or-that pair, or by a slider. Every answer is stored under the
 * question's id and schedules an 800 ms timer that moves to the question
 * after the one answered, or finishes the quiz after the last.
 *
 * The advance timers are a first-in first-out queue holding the question
 * index each captured (all have the same delay, so they fire in the order
 * they were set); the effect run on entering a question happens with the
 * change of `currentQuestion`, and its one-second typing timer is a flag.
 */
module ConversationEngine {
  import opened Wrappers

  datatype Choice = Choice(id: string, text: string)

  /** How a question is answered. */
  datatype Kind =
    | MultipleChoice(options: seq<Choice>)
    | Slider(min: int, max: int, step: int, labels: seq<string>)
    | ThisOrThat(options: seq<Choice>)

  datatype Question = Question(id: string, question: string, kind: Kind)

  const MorningRoutine := Question("morning-routine", "First thing you reach for in the morning?",
    MultipleChoice([Choice("phone", "Phone"), Choice("coffee", "Coffee"), Choice("stretch", "Stretch"),
                    Choice("journal", "Journal")]))
  const NotificationFeeling := Question("notification-feeling", "When your phone buzzes with notifications, you feel:",
    Slider(0, 100, 1, ["Anxious", "Curious", "Excited"]))
  const DigitalBreak := Question("digital-break", "Your ideal digital break is:",
    MultipleChoice([Choice("nature", "Nature escape"), Choice("social", "In-person socializing"),
                    Choice("analog-hobby", "Analog hobby"), Choice("different-screen", "Different screen activity")]))
  const MissedNotifications := Question("missed-notifications", "Missing notifications makes you feel:",
    MultipleChoice([Choice("relieved", "Relieved"), Choice("anxious", "Anxious"), Choice("indifferent", "Indifferent")]))
  const TechBalance := Question("tech-balance", "Your tech-life balance feels:",
    Slider(0, 100, 1, ["Out of control", "Manageable", "Perfect"]))
  const DigitalConsumption := Question("digital-consumption", "You prefer digital content that is:",
    MultipleChoice([Choice("educational", "Educational"), Choice("entertaining", "Entertaining"),
                    Choice("mindless", "Mindless escape"), Choice("creative", "Creative inspiration")]))
  const ScreenTime := Question("screen-time", "Your ideal daily screen time:",
    Slider(0, 100, 1, ["Minimal", "Moderate", "Unlimited"]))
  const SocialValidation := Question("social-validation", "Online social validation feels:",
    ThisOrThat([Choice("meaningful", "Meaningful"), Choice("empty", "Empty")]))
  const TechAttitude := Question("tech-attitude", "Technology primarily makes your life:",
    ThisOrThat([Choice("better", "Better"), Choice("complicated", "Complicated")]))
  const FinalQuestion := Question("final-question", "Your digital self is:",
    MultipleChoice([Choice("authentic", "Authentic me"), Choice("curated", "Curated version"),
                    Choice("separate", "Separate entity"), Choice("extension", "Natural extension")]))

  /** `quizQuestions`. */
  const QuizQuestions: seq<Question> := [MorningRoutine, NotificationFeeling, DigitalBreak, MissedNotifications,
    TechBalance, DigitalConsumption, ScreenTime, SocialValidation, TechAttitude, FinalQuestion]

  /** The number of questions, `quizQuestions.length`. */
  const QuestionCount: nat := 10

  /** The ids of the questions, in order. */
  const QuestionIds: seq<string> := ["morning-routine", "notification-feeling", "digital-break", "missed-notifications",
    "tech-balance", "digital-consumption", "screen-time", "social-validation", "tech-attitude", "final-question"]

  /** The table holds ten questions, listed under these ids, and no id is used twice. */
  lemma QuestionTable()
    ensures |QuizQuestions| == QuestionCount == |QuestionIds|
    ensures forall i :: 0 <= i < QuestionCount ==> QuizQuestions[i].id == QuestionIds[i]
    ensures forall i, j :: 0 <= i < j < QuestionCount ==> QuestionIds[i] != QuestionIds[j]
  {
  }

  /** Every slider runs from 0 to 100 in steps of 1 with three labels, and
      every option question offers at least two options with distinct ids. */
  lemma QuestionKinds()
    ensures forall i :: 0 <= i < |QuizQuestions| && QuizQuestions[i].kind.Slider? ==>
      var k := QuizQuestions[i].kind;
      k.min == 0 && k.max == 100 && k.step == 1 && |k.labels| == 3
    ensures forall i :: 0 <= i < |QuizQuestions| && !QuizQuestions[i].kind.Slider? ==>
      var o := QuizQuestions[i].kind.options;
      |o| >= 2 && forall a, b :: 0 <= a < b < |o| ==> o[a].id != o[b].id
  {
  }

  /** A recorded answer: an option's id, or a slider's value. */
  datatype AnswerValue = OptionAnswer(option: string) | SliderAnswer(value: int)

  /** The slider position a question starts at. */
  const SliderStart := 50

  /** The component's state: its `useState` hooks, the captured question
      index of each pending advance timer, and whether the typing timer of
      the current question is pending. */
  datatype EngineState = EngineState(
    currentQuestion: nat,
    answers: map<string, AnswerValue>,
    isTyping: bool,
    isFinished: bool,
    sliderValue: int,
    selectedOption: Option<string>,
    pendingAdvances: seq<nat>,
    typingPending: bool)

  /** The invariant: the current question is in the table; answers are
      stored only under the ids of questions reached so far; every pending
      timer captured the current question or the one before, in the order
      they were set; the slider is within its range. */
  predicate Consistent(s: EngineState) {
    && s.currentQuestion < QuestionCount
    && (forall id :: id in s.answers ==> id in QuestionIds[..s.currentQuestion + 1])
    && (forall i :: 0 <= i < |s.pendingAdvances| ==>
          s.pendingAdvances[i] == s.currentQuestion || s.pendingAdvances[i] + 1 == s.currentQuestion)
    && (forall i, j :: 0 <= i < j < |s.pendingAdvances| ==> s.pendingAdvances[i] <= s.pendingAdvances[j])
    && 0 <= s.sliderValue <= 100
  }

  /** The state after entering question `q`: the effect on `currentQuestion`
      clears the selection, puts the slider back and starts typing. */
  function Enter(s: EngineState, q: nat): (r: EngineState)
    ensures r.currentQuestion == q && r.selectedOption.None? && r.sliderValue == SliderStart
    ensures r.isTyping && r.typingPending
    ensures r.answers == s.answers && r.isFinished == s.isFinished && r.pendingAdvances == s.pendingAdvances
  {
    s.(currentQuestion := q, selectedOption := None, sliderValue := SliderStart, isTyping := true, typingPending := true)
  }

  /** The options offered by a question that is answered by choosing. */
  function OptionIds(q: Question): seq<string> {
    match q.kind
    case MultipleChoice(options) => seq(|options|, i requires 0 <= i < |options| => options[i].id)
    case ThisOrThat(options) => seq(|options|, i requires 0 <= i < |options| => options[i].id)
    case Slider(_, _, _, _) => []
  }

  /** Recording an answer for the current question and setting its advance timer keeps the invariant. */
  lemma AnswerKeeps(s: EngineState, v: AnswerValue)
    requires Consistent(s)
    ensures Consistent(s.(answers := s.answers[QuizQuestions[s.currentQuestion].id := v],
                          pendingAdvances := s.pendingAdvances + [s.currentQuestion]))
  {
    QuestionTable();
    var c := s.currentQuestion;
    assert QuestionIds[..c + 1][c] == QuestionIds[c];
  }

  /** Firing the oldest advance timer keeps the invariant. */
  lemma AdvanceKeeps(s: EngineState)
    requires Consistent(s) && s.pendingAdvances != []
    ensures var c := s.pendingAdvances[0];
      var t := s.(pendingAdvances := s.pendingAdvances[1..]);
      Consistent(if c < QuestionCount - 1 then
                   (if c + 1 != s.currentQuestion then Enter(t, c + 1) else t)
                 else t.(isFinished := true))
  {
    var c := s.pendingAdvances[0];
    if c < QuestionCount - 1 && c + 1 != s.currentQuestion {
      assert c == s.currentQuestion;
      forall id | id in s.answers
        ensures id in QuestionIds[..c + 2]
      {
        assert QuestionIds[..c + 1] <= QuestionIds[..c + 2];
      }
    }
  }

  const Initial := EngineState(0, map[], true, false, SliderStart, None, [], true)

  class Engine {
    var state: EngineState

    ghost predicate Valid()
      reads this
    {
      Consistent(state)
    }

    /** Mounting: the first question is entered. */
    constructor ()
      ensures Valid()
      ensures state == Initial
    {
      state := Initial;
    }

    /** `handleOptionSelect`: an option of the current question is chosen;
        its id is stored under the question's id and the advance timer is
        set. The options are on screen only before the quiz is finished. */
    method SelectOption(option: string)
      requires Valid() && !state.isFinished
      requires option in OptionIds(QuizQuestions[state.currentQuestion])
      modifies this
      ensures Valid()
      ensures state.answers == old(state.answers)[QuizQuestions[old(state.currentQuestion)].id := OptionAnswer(option)]
      ensures state.selectedOption == Some(option)
      ensures state.pendingAdvances == old(state.pendingAdvances) + [old(state.currentQuestion)]
      ensures state.currentQuestion == old(state.currentQuestion) && state.sliderValue == old(state.sliderValue)
      ensures state.isFinished == old(state.isFinished) && state.isTyping == old(state.isTyping)
      ensures state.typingPending == old(state.typingPending)
    {
      AnswerKeeps(state, OptionAnswer(option));
      state := state.(answers := state.answers[QuizQuestions[state.currentQuestion].id := OptionAnswer(option)],
                      selectedOption := Some(option),
                      pendingAdvances := state.pendingAdvances + [state.currentQuestion]);
    }

    /** `handleThisOrThat`: exactly an option selection. */
    method ChooseThisOrThat(option: string)
      requires Valid() && !state.isFinished
      requires option in OptionIds(QuizQuestions[state.currentQuestion])
      modifies this
      ensures Valid()
      ensures state.answers == old(state.answers)[QuizQuestions[old(state.currentQuestion)].id := OptionAnswer(option)]
      ensures state.selectedOption == Some(option)
      ensures state.pendingAdvances == old(state.pendingAdvances) + [old(state.currentQuestion)]
      ensures state.currentQuestion == old(state.currentQuestion) && state.sliderValue == old(state.sliderValue)
      ensures state.isFinished == old(state.isFinished) && state.isTyping == old(state.isTyping)
      ensures state.typingPending == old(state.typingPending)
    {
      SelectOption(option);
    }

    /** `handleSliderChange`: the slider moves to `value`. */
    method SliderChange(value: int)
      requires Valid() && 0 <= value <= 100
      modifies this
      ensures Valid()
      ensures state == old(state).(sliderValue := value)
    {
      state := state.(sliderValue := value);
    }

    /** `handleSliderComplete`: the slider's current value is stored under
        the question's id and the advance timer is set. */
    method SliderComplete()
      requires Valid() && !state.isFinished
      modifies this
      ensures Valid()
      ensures state.answers == old(state.answers)[QuizQuestions[old(state.currentQuestion)].id := SliderAnswer(old(state.sliderValue))]
      ensures state.pendingAdvances == old(state.pendingAdvances) + [old(state.currentQuestion)]
      ensures state.currentQuestion == old(state.currentQuestion) && state.sliderValue == old(state.sliderValue)
      ensures state.selectedOption == old(state.selectedOption) && state.isFinished == old(state.isFinished)
      ensures state.isTyping == old(state.isTyping) && state.typingPending == old(state.typingPending)
    {
      AnswerKeeps(state, SliderAnswer(state.sliderValue));
      state := state.(answers := state.answers[QuizQuestions[state.currentQuestion].id := SliderAnswer(state.sliderValue)],
                      pendingAdvances := state.pendingAdvances + [state.currentQuestion]);
    }

    /** The oldest advance timer fires with the question index `c` it
        captured: below the last question the quiz moves to `c + 1`
        (entering it if that changes the question), at the last it is
        finished. */
    method AdvanceTimerFires()
      requires Valid() && state.pendingAdvances != []
      modifies this
      ensures Valid()
      ensures state.pendingAdvances == old(state.pendingAdvances)[1..]
      ensures var c := old(state.pendingAdvances[0]);
        && (c < QuestionCount - 1 ==> state.currentQuestion == c + 1 && state.isFinished == old(state.isFinished))
        && (c >= QuestionCount - 1 ==> state.currentQuestion == old(state.currentQuestion) && state.isFinished)
      ensures old(state.currentQuestion) <= state.currentQuestion <= old(state.currentQuestion) + 1
      ensures state.currentQuestion != old(state.currentQuestion) ==>
        state == Enter(old(state).(pendingAdvances := old(state.pendingAdvances)[1..]), state.currentQuestion)
      ensures state.currentQuestion == old(state.currentQuestion) ==>
        && state.selectedOption == old(state.selectedOption) && state.sliderValue == old(state.sliderValue)
        && state.isTyping == old(state.isTyping) && state.typingPending == old(state.typingPending)
      ensures state.answers == old(state.answers)
    {
      AdvanceKeeps(state);
      var c := state.pendingAdvances[0];
      state := state.(pendingAdvances := state.pendingAdvances[1..]);
      if c < QuestionCount - 1 {
        if c + 1 != state.currentQuestion {
          state := Enter(state, c + 1);
        }
      } else {
        state := state.(isFinished := true);
      }
    }

    /** The one-second typing timer of the current question. */
    method TypingTimerFires()
      requires Valid() && state.typingPending
      modifies this
      ensures Valid()
      ensures state == old(state).(isTyping := false, typingPending := false)
    {
      state := state.(isTyping := false, typingPending := false);
    }
  }

  /** The answers of a quiz are stored only under ids of the question
      table: no answer is ever kept under any other key. */
  lemma AnswersKeyedByQuestions(s: EngineState)
    requires Consistent(s)
    ensures forall id :: id in s.answers ==> id in QuestionIds
  {
    assert forall id :: id in QuestionIds[..s.currentQuestion + 1] ==> id in QuestionIds;
  }

  /** However many times one question is answered before its timers fire,
      the quiz moves on by at most one question: firing every pending timer
      of a state whose timers all captured the current question `c` ends at
      `c + 1` (or finished at the last question). */
  lemma {:induction false} RepeatedAnswersAdvanceOnce(s: EngineState, c: nat, n: nat)
    requires Consistent(s) && n <= |s.pendingAdvances| && s.currentQuestion <= c + 1
    requires forall i :: 0 <= i < |s.pendingAdvances| ==> s.pendingAdvances[i] == c
    ensures var r := FireAll(s, n);
      && Consistent(r) && s.currentQuestion <= r.currentQuestion <= c + 1
      && r.currentQuestion <= s.currentQuestion + 1
    decreases n
  {
    if n > 0 {
      AdvanceKeeps(s);
      var t := Fire(s);
      assert forall i :: 0 <= i < |t.pendingAdvances| ==> t.pendingAdvances[i] == s.pendingAdvances[i + 1];
      RepeatedAnswersAdvanceOnce(t, c, n - 1);
    }
  }

  /** What `AdvanceTimerFires` does, as a value. */
  function Fire(s: EngineState): EngineState
    requires s.pendingAdvances != []
  {
    var c := s.pendingAdvances[0];
    var t := s.(pendingAdvances := s.pendingAdvances[1..]);
    if c < QuestionCount - 1 then (if c + 1 != s.currentQuestion then Enter(t, c + 1) else t)
    else t.(isFinished := true)
  }

  /** The state after the `n` oldest advance timers fire. */
  function FireAll(s: EngineState, n: nat): EngineState
    requires n <= |s.pendingAdvances|
    decreases n
  {
    if n == 0 then s
    else
      var t := Fire(s);
      assert |t.pendingAdvances| == |s.pendingAdvances| - 1;
      FireAll(t, n - 1)
  }
}
