/**
 * The user-registration form (`src/components/UserInfoForm.tsx`): name, then
 * age, then gender, each typed at a terminal prompt. Gender must be one of a
 * fixed list once lower-cased and trimmed; a rejected gender shows an error
 * that a two-second timer hides, clearing the input with it. Accepting the
 * gender hands the collected fields to `onComplete`.
 *
 * The error timer is a count of pending timers and a method that fires the
 * oldest; the half-second delay before `onComplete` is immediate.
 */
module UserInfoForm {
  import opened Text
  import opened Keys

  datatype Field = Name | Age | Gender

  datatype UserInfo = UserInfo(name: string, age: string, gender: string)

  /** The answers `validGenders` lists. */
  const ValidGenders: seq<string> := ["m", "f", "male", "female", "other", "non-binary", "nb"]

  /** The check on the gender input: lower-cased, then trimmed, then looked up. */
  predicate GenderAccepted(input: string) {
    Trim(ToLower(input)) in ValidGenders
  }

  /** A non-blank value with no white space at either end, as `trim` leaves it. */
  predicate Filled(v: string) {
    v != "" && !IsSpace(v[0]) && !IsSpace(v[|v| - 1])
  }

  /** The field asked for after `f`; gender stays the current field once answered. */
  function Next(f: Field): Field {
    match f
    case Name => Age
    case Age => Gender
    case Gender => Gender
  }

  /** `{ ...userInfo, [currentField]: v }`. */
  function SetField(u: UserInfo, f: Field, v: string): (r: UserInfo)
    ensures r.name == (if f == Name then v else u.name)
    ensures r.age == (if f == Age then v else u.age)
    ensures r.gender == (if f == Gender then v else u.gender)
  {
    match f
    case Name => u.(name := v)
    case Age => u.(age := v)
    case Gender => u.(gender := v)
  }

  /** A complete registration: every field filled, the gender one of the accepted answers. */
  predicate Complete(u: UserInfo) {
    Filled(u.name) && Filled(u.age) && Filled(u.gender) && ToLower(u.gender) in ValidGenders
  }

  /** The component's state: its `useState` hooks, the error timers pending
      and the `onComplete` calls made. */
  datatype FormState = FormState(
    currentField: Field,
    userInfo: UserInfo,
    currentInput: string,
    promptComplete: bool,
    showError: bool,
    pendingErrorClears: nat,
    completions: seq<UserInfo>)

  /** The invariant: the fields before the current one are filled and the
      ones after it empty; the gender is filled only once completed; every
      completion is a complete registration with the current name and age,
      the last one the current user info; an error is shown only while its
      timer is pending, and only at the gender prompt. */
  predicate Consistent(s: FormState) {
    && (s.currentField == Name ==> s.userInfo == UserInfo("", "", ""))
    && (s.currentField == Age ==> Filled(s.userInfo.name) && s.userInfo.age == "" && s.userInfo.gender == "")
    && (s.currentField == Gender ==> Filled(s.userInfo.name) && Filled(s.userInfo.age))
    && (s.completions == [] <==> s.userInfo.gender == "")
    && (s.completions != [] ==> s.currentField == Gender && s.completions[|s.completions| - 1] == s.userInfo)
    && (forall i :: 0 <= i < |s.completions| ==>
          Complete(s.completions[i]) && s.completions[i].name == s.userInfo.name && s.completions[i].age == s.userInfo.age)
    && (s.showError ==> s.pendingErrorClears > 0)
    && (s.pendingErrorClears > 0 ==> s.currentField == Gender)
  }

  /** A trimmed non-blank input fills a field. */
  lemma TrimFills(input: string)
    requires !IsBlank(input)
    ensures Filled(Trim(input))
  {
  }

  /** An accepted gender keeps its case when stored, and its lower-cased
      form is one of the accepted answers. */
  lemma {:induction false} AcceptedGenderStored(input: string)
    requires GenderAccepted(input)
    ensures ToLower(Trim(input)) in ValidGenders
    ensures Filled(Trim(input))
  {
    TrimLowerCommute(input);
    assert ToLower(Trim(input)) != "";
  }

  /** What accepting `v` in the current field makes of the state. */
  function Accepted(s: FormState, v: string): FormState {
    var u := SetField(s.userInfo, s.currentField, v);
    s.(userInfo := u, currentInput := "", promptComplete := false, currentField := Next(s.currentField),
       completions := s.completions + (if s.currentField == Gender then [u] else []))
  }

  /** Storing a filled value (at the gender prompt, an accepted gender) keeps the invariant. */
  lemma AcceptKeeps(s: FormState, v: string)
    requires Consistent(s) && Filled(v)
    requires s.currentField == Gender ==> ToLower(v) in ValidGenders
    ensures Consistent(Accepted(s, v))
  {
    var t := Accepted(s, v);
    if s.currentField == Gender {
      assert t.completions[|t.completions| - 1] == t.userInfo;
      assert forall i :: 0 <= i < |s.completions| ==> t.completions[i] == s.completions[i];
    }
  }

  /** What rejecting the gender input makes of the state: the error shows and its timer starts. */
  function Rejected(s: FormState): FormState {
    s.(showError := true, pendingErrorClears := s.pendingErrorClears + 1)
  }

  /** Enter on non-blank input: a gender outside the list is rejected,
      anything else is stored trimmed. */
  function Submitted(s: FormState): FormState {
    if s.currentField == Gender && !GenderAccepted(s.currentInput) then Rejected(s)
    else Accepted(s, Trim(s.currentInput))
  }

  /** A rejection at the gender prompt keeps the invariant. */
  lemma RejectKeeps(s: FormState)
    requires Consistent(s) && s.currentField == Gender
    ensures Consistent(Rejected(s))
  {
  }

  /** A change that leaves the fields, the user info and the completions
      alone keeps the invariant as long as its error and timer agree. */
  lemma FrameKeeps(s: FormState, t: FormState)
    requires Consistent(s)
    requires t.currentField == s.currentField && t.userInfo == s.userInfo && t.completions == s.completions
    requires t.showError ==> t.pendingErrorClears > 0
    requires t.pendingErrorClears > 0 ==> t.currentField == Gender
    ensures Consistent(t)
  {
  }

  const Initial := FormState(Name, UserInfo("", "", ""), "", false, false, 0, [])

  class UserInfoPrompt {
    var state: FormState

    ghost predicate Valid()
      reads this
    {
      Consistent(state)
    }

    constructor ()
      ensures Valid()
      ensures state == Initial
    {
      state := Initial;
    }

    /** The prompt's typing animation finishes. */
    method TypingDone()
      requires Valid()
      modifies this
      ensures Valid()
      ensures state == old(state).(promptComplete := true)
    {
      FrameKeeps(state, state.(promptComplete := true));
      state := state.(promptComplete := true);
    }

    /** Enter on a non-blank input: a gender outside the list raises the
        error and starts its timer, with nothing else changed; otherwise the
        trimmed input is stored in the current field, the input is cleared,
        the next prompt starts typing, and after the gender `onComplete`
        receives the new user info. */
    method Submit()
      requires Valid() && state.promptComplete && !IsBlank(state.currentInput)
      modifies this
      ensures Valid()
      ensures var s := old(state);
        var rejected := s.currentField == Gender && !GenderAccepted(s.currentInput);
        && (rejected ==> state == s.(showError := true, pendingErrorClears := s.pendingErrorClears + 1))
        && (!rejected ==>
              var u := SetField(s.userInfo, s.currentField, Trim(s.currentInput));
              && state.userInfo == u && state.currentField == Next(s.currentField)
              && state.currentInput == "" && !state.promptComplete
              && state.showError == s.showError && state.pendingErrorClears == s.pendingErrorClears
              && state.completions == s.completions + (if s.currentField == Gender then [u] else []))
      ensures state == Submitted(old(state))
    {
      if state.currentField == Gender && !GenderAccepted(state.currentInput) {
        RejectKeeps(state);
        state := Rejected(state);
        return;
      }
      var v := Trim(state.currentInput);
      TrimFills(state.currentInput);
      if state.currentField == Gender {
        AcceptedGenderStored(state.currentInput);
      }
      AcceptKeeps(state, v);
      state := Accepted(state, v);
    }

    /** The key handler: ignored until the prompt has finished typing; Enter
        on blank input does nothing, on other input submits it; Backspace and
        printable keys edit the input and hide the error. */
    method KeyDown(e: KeyEvent)
      requires Valid()
      modifies this
      ensures Valid()
      ensures !old(state.promptComplete) || (e.key == "Enter" && IsBlank(old(state.currentInput))) ==> state == old(state)
      ensures old(state.promptComplete) && e.key != "Enter" ==>
        state == old(state).(currentInput := Edit(old(state.currentInput), e),
                             showError := old(state.showError) && e.key != "Backspace" && !IsTyped(e))
      ensures old(state.promptComplete) && e.key == "Enter" && !IsBlank(old(state.currentInput)) ==>
        state == Submitted(old(state))
    {
      if !state.promptComplete {
        return;
      }
      if e.key == "Enter" {
        if Trim(state.currentInput) != "" {
          Submit();
        }
      } else if e.key == "Backspace" {
        FrameKeeps(state, state.(currentInput := DropLast(state.currentInput), showError := false));
        state := state.(currentInput := DropLast(state.currentInput), showError := false);
      } else if IsTyped(e) {
        FrameKeeps(state, state.(currentInput := state.currentInput + e.key, showError := false));
        state := state.(currentInput := state.currentInput + e.key, showError := false);
      }
    }

    /** The two-second timer of a rejection: the error is hidden and the input cleared. */
    method ErrorTimerFires()
      requires Valid() && state.pendingErrorClears > 0
      modifies this
      ensures Valid()
      ensures state == old(state).(showError := false, currentInput := "", pendingErrorClears := old(state.pendingErrorClears) - 1)
    {
      FrameKeeps(state, state.(showError := false, currentInput := "", pendingErrorClears := state.pendingErrorClears - 1));
      state := state.(showError := false, currentInput := "", pendingErrorClears := state.pendingErrorClears - 1);
    }
  }

  /** `onComplete` has been called only with complete registrations, and
      only once the gender prompt was reached. */
  lemma CompletionsComplete(s: FormState)
    requires Consistent(s)
    ensures forall i :: 0 <= i < |s.completions| ==> Complete(s.completions[i])
    ensures s.completions != [] ==> s.currentField == Gender && Complete(s.userInfo)
  {
  }

  /** The fields are collected name, then age, then gender: a field holds a
      value only once every earlier field does. */
  lemma FieldOrder(s: FormState)
    requires Consistent(s)
    ensures s.userInfo.age != "" ==> s.userInfo.name != ""
    ensures s.userInfo.gender != "" ==> s.userInfo.age != ""
  {
  }

  /** Lower-casing keeps a string blank. */
  lemma {:induction false} LowerBlank(s: string)
    requires IsBlank(s)
    ensures IsBlank(ToLower(s))
  {
    forall i | 0 <= i < |s|
      ensures IsSpace(ToLower(s)[i])
    {
      LowerKeepsSpace(s[i]);
    }
  }

  /** The gender check ignores case and surrounding white space: any
      padding of any capitalisation of an accepted answer is accepted. */
  lemma {:induction false} PaddedGenderAccepted(before: string, g: string, after: string)
    requires IsBlank(before) && IsBlank(after)
    requires ToLower(g) in ValidGenders
    ensures GenderAccepted(before + g + after)
  {
    var lower := ToLower(g);
    assert ToLower(before + g + after) == ToLower(before) + lower + ToLower(after);
    LowerBlank(before);
    LowerBlank(after);
    assert lower != [] && !IsSpace(lower[0]) && !IsSpace(lower[|lower| - 1]);
    TrimPadded(ToLower(before), lower, ToLower(after));
  }

  /** For input without surrounding white space, the check is a
      case-insensitive lookup in the list. */
  lemma {:induction false} UnpaddedGenderCheck(g: string)
    requires g == [] || (!IsSpace(g[0]) && !IsSpace(g[|g| - 1]))
    ensures GenderAccepted(g) <==> ToLower(g) in ValidGenders
  {
    UnpaddedLookup(g, ValidGenders);
  }

  /** Trimming after lower-casing changes nothing for unpadded input, so a
      lookup of either form agrees, in any list. */
  lemma UnpaddedLookup(g: string, list: seq<string>)
    requires g == [] || (!IsSpace(g[0]) && !IsSpace(g[|g| - 1]))
    ensures Trim(ToLower(g)) in list <==> ToLower(g) in list
  {
    if g != [] {
      LowerKeepsSpace(g[0]);
      LowerKeepsSpace(g[|g| - 1]);
    }
    TrimUnpadded(ToLower(g));
  }

  /** The check is exact on the trimmed answer: it is accepted precisely when
      its lower-cased form is listed, so every unlisted answer is refused,
      however it is capitalised or padded. */
  lemma UnlistedGenderRefused(g: string)
    ensures GenderAccepted(g) <==> ToLower(Trim(g)) in ValidGenders
  {
    TrimLowerCommute(g);
  }

  /** For example, "man" is refused in any capitalisation, even though the
      listed answer "m" is a prefix of it. */
  lemma {:induction false} PrefixOfListedRefused(g: string)
    requires ToLower(g) == "man"
    ensures !GenderAccepted(g)
  {
    LowerKeepsSpace(g[0]);
    LowerKeepsSpace(g[|g| - 1]);
    UnpaddedGenderCheck(g);
  }
}
