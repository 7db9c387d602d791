/** The language switch shown in the corner of every screen. */
module LanguageToggle {

  const English: string := "en"
  const Tamil: string := "ta"

  /** The language chosen by one press: English goes to Tamil, everything else to English. */
  function Toggle(language: string): (next: string)
    ensures language == English ==> next == Tamil
    ensures language != English ==> next == English
    ensures next == English || next == Tamil
  {
    if language == English then Tamil else English
  }

  /** The button names the language a press switches to: the Tamil letter or "EN". */
  function ButtonLabel(language: string): (caption: string)
    ensures caption == "த" <==> Toggle(language) == Tamil
    ensures caption == "EN" <==> Toggle(language) == English
  {
    if language == English then "த" else "EN"
  }

  /** Two presses restore either of the two real languages. */
  lemma ToggleTwice(language: string)
    requires language == English || language == Tamil
    ensures Toggle(Toggle(language)) == language
  {
  }

  /** From any starting value, after one press the toggle is an involution. */
  lemma ToggleSettles(language: string)
    ensures Toggle(Toggle(Toggle(language))) == Toggle(language)
  {
  }
}
