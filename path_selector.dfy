/**
 * The path prompt (`src/components/PathSelector.tsx`): once the menu has
 * finished typing, key "1" or "2" is echoed and selects that path; any other
 * one-character key is echoed with an error that a 1.5-second timer hides,
 * clearing the echo. Named keys (Enter, Shift, ...) are ignored.
 *
 * The error timer is a count of pending timers and a method that fires one;
 * the half-second delay before `onPathSelected` is immediate.
 */
module PathSelector {
  import opened Keys

  /** The two paths: 1 the guided protocol, 2 the open sequence. */
  newtype PathChoice = p: int | 1 <= p <= 2 witness 1

  /** The component's state: its `useState` hooks, the error timers pending
      and the `onPathSelected` calls made. */
  datatype SelectorState = SelectorState(
    currentInput: string,
    showError: bool,
    promptComplete: bool,
    pendingErrorClears: nat,
    selections: seq<PathChoice>)

  /** The echo is empty or one character, and an error is shown only while
      its timer is pending. */
  predicate Consistent(s: SelectorState) {
    && |s.currentInput| <= 1
    && (s.showError ==> s.pendingErrorClears > 0)
  }

  const Initial := SelectorState("", false, false, 0, [])

  class PathPrompt {
    var state: SelectorState

    ghost predicate Valid()
      reads this
    {
      Consistent(state)
    }

    constructor ()
      ensures Valid()
      ensures state == Initial
    {
      state := Initial;
    }

    /** The menu's typing animation finishes. */
    method TypingDone()
      requires Valid()
      modifies this
      ensures Valid()
      ensures state == old(state).(promptComplete := true)
    {
      state := state.(promptComplete := true);
    }

    /** The key handler. Modifier keys are not checked: any one-character key
        name counts. */
    method KeyDown(e: KeyEvent)
      requires Valid()
      modifies this
      ensures Valid()
      ensures state == Press(old(state), e.key)
      ensures !old(state.promptComplete) || JsLength(e.key) != 1 ==> state == old(state)
      ensures old(state.promptComplete) && e.key == "1" ==>
        state == old(state).(currentInput := "1", selections := old(state.selections) + [1])
      ensures old(state.promptComplete) && e.key == "2" ==>
        state == old(state).(currentInput := "2", selections := old(state.selections) + [2])
      ensures old(state.promptComplete) && JsLength(e.key) == 1 && e.key != "1" && e.key != "2" ==>
        state == old(state).(currentInput := e.key, showError := true,
                             pendingErrorClears := old(state.pendingErrorClears) + 1)
    {
      if !state.promptComplete {
        return;
      }
      if e.key == "1" {
        state := state.(currentInput := "1", selections := state.selections + [1]);
      } else if e.key == "2" {
        state := state.(currentInput := "2", selections := state.selections + [2]);
      } else if JsLength(e.key) == 1 {
        state := state.(currentInput := e.key, showError := true, pendingErrorClears := state.pendingErrorClears + 1);
      }
    }

    /** The 1.5-second timer of an invalid key: the error is hidden and the echo cleared. */
    method ErrorTimerFires()
      requires Valid() && state.pendingErrorClears > 0
      modifies this
      ensures Valid()
      ensures state == old(state).(showError := false, currentInput := "", pendingErrorClears := old(state.pendingErrorClears) - 1)
    {
      state := state.(showError := false, currentInput := "", pendingErrorClears := state.pendingErrorClears - 1);
    }
  }

  /** The transition of one key press, as a value: what `KeyDown` does to the state. */
  function Press(s: SelectorState, key: string): (r: SelectorState)
    ensures |s.selections| <= |r.selections| <= |s.selections| + 1
    ensures r.selections[..|s.selections|] == s.selections
    ensures |r.selections| == |s.selections| + 1 <==> s.promptComplete && (key == "1" || key == "2")
    ensures |r.selections| == |s.selections| + 1 ==> r.selections[|s.selections|] as int == if key == "1" then 1 else 2
  {
    if !s.promptComplete then s
    else if key == "1" then s.(currentInput := "1", selections := s.selections + [1])
    else if key == "2" then s.(currentInput := "2", selections := s.selections + [2])
    else if JsLength(key) == 1 then s.(currentInput := key, showError := true, pendingErrorClears := s.pendingErrorClears + 1)
    else s
  }

  /** Over any sequence of key presses, the paths selected are exactly the
      presses of "1" and "2" made once the menu was typed, in order. */
  function Selected(promptComplete: bool, keys: seq<string>): (r: seq<PathChoice>)
    ensures |r| <= |keys|
  {
    if keys == [] || !promptComplete then []
    else
      var rest := Selected(promptComplete, keys[1..]);
      if keys[0] == "1" then [1 as PathChoice] + rest
      else if keys[0] == "2" then [2 as PathChoice] + rest
      else rest
  }

  /** The state after a sequence of key presses. */
  function PressAll(s: SelectorState, keys: seq<string>): SelectorState
    decreases keys
  {
    if keys == [] then s else PressAll(Press(s, keys[0]), keys[1..])
  }

  lemma {:induction false} PressAllSelects(s: SelectorState, keys: seq<string>)
    decreases keys
    ensures PressAll(s, keys).selections == s.selections + Selected(s.promptComplete, keys)
    ensures PressAll(s, keys).promptComplete == s.promptComplete
  {
    if keys != [] {
      var t := Press(s, keys[0]);
      PressAllSelects(t, keys[1..]);
      assert t.promptComplete == s.promptComplete;
      if s.promptComplete && (keys[0] == "1" || keys[0] == "2") {
        assert t.selections == s.selections + [if keys[0] == "1" then 1 as PathChoice else 2 as PathChoice];
      } else {
        assert t.selections == s.selections;
      }
    }
  }

  /** A key that is not one character long changes nothing, and no key does
      anything before the menu has been typed. */
  lemma IgnoredKeys(s: SelectorState, key: string)
    requires !s.promptComplete || JsLength(key) != 1
    ensures Press(s, key) == s
  {
  }
}
