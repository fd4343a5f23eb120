/**
 * The keyboard events the terminal-style components react to, and the line
 * editor they share: Backspace drops the last character, and a printable key
 * pressed without Ctrl, Alt or Meta is appended.
 */
module Keys {

  /** A `keydown` event: the key's name (one character for a printable key)
      and the modifier flags. */
  datatype KeyEvent = KeyEvent(key: string, ctrlKey: bool, altKey: bool, metaKey: bool)

  /** `s.length`: JavaScript counts UTF-16 code units, two for a character
      outside the Basic Multilingual Plane. */
  function JsLength(s: string): (n: nat)
    ensures |s| <= n <= 2 * |s|
  {
    if s == [] then 0 else (if s[0] as int >= 0x1_0000 then 2 else 1) + JsLength(s[1..])
  }

  /** A string of JavaScript length one is a single character of the Basic
      Multilingual Plane. */
  lemma JsLengthOne(s: string)
    ensures JsLength(s) == 1 <==> |s| == 1 && s[0] as int < 0x1_0000
  {
    if |s| == 1 {
      assert s[1..] == [];
    }
  }

  /** `e.key.length === 1 && !e.ctrlKey && !e.altKey && !e.metaKey`. */
  predicate IsTyped(e: KeyEvent) {
    JsLength(e.key) == 1 && !e.ctrlKey && !e.altKey && !e.metaKey
  }

  /** `s.slice(0, -1)`: the last character removed, the empty string kept. */
  function DropLast(s: string): (r: string)
    ensures s == [] ==> r == []
    ensures s != [] ==> r + [s[|s| - 1]] == s
  {
    if s == [] then [] else s[..|s| - 1]
  }

  /** The input after a key other than Enter. */
  function Edit(input: string, e: KeyEvent): (r: string)
    requires e.key != "Enter"
    ensures e.key == "Backspace" ==> r == DropLast(input)
    ensures e.key != "Backspace" && IsTyped(e) ==> r == input + e.key && |r| == |input| + 1
    ensures e.key != "Backspace" && !IsTyped(e) ==> r == input
  {
    if e.key == "Backspace" then DropLast(input)
    else if IsTyped(e) then input + e.key
    else input
  }

  /** Typing a character and pressing Backspace gives the input back. */
  lemma TypeThenBackspace(input: string, e: KeyEvent, backspace: KeyEvent)
    requires IsTyped(e) && backspace.key == "Backspace"
    ensures Edit(Edit(input, e), backspace) == input
  {
    assert (input + e.key)[..|input|] == input;
  }

  /** Named keys such as "Shift" or "Enter" never reach the input. */
  lemma NamedKeysIgnored(input: string, e: KeyEvent)
    requires |e.key| > 1 && e.key != "Enter" && e.key != "Backspace"
    ensures Edit(input, e) == input
  {
  }

  /** A key outside the Basic Multilingual Plane, such as an emoji, has
      JavaScript length two and never reaches the input either. */
  lemma AstralKeyIgnored(input: string, e: KeyEvent)
    requires |e.key| == 1 && e.key[0] as int >= 0x1_0000
    ensures !IsTyped(e) && Edit(input, e) == input
  {
    JsLengthOne(e.key);
  }
}
