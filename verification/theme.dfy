/** The light/dark display preference: a flag flipped by one button and
    kept in browser storage under the key "theme" as "dark" or "light". */
module Theme {
  import opened Wrappers

  /** `toggleDarkMode`: the new flag is the old one negated. */
  function Toggle(dark: bool): (toggled: bool)
    ensures toggled != dark
  {
    !dark
  }

  /** The flag read at start-up, `localStorage.getItem("theme") === "dark"`;
      `None` is a key that was never written. */
  function Decode(stored: Option<string>): (dark: bool)
    ensures stored.None? ==> !dark
    ensures dark <==> stored == Some("dark")
  {
    stored == Some("dark")
  }

  /** The string written to storage whenever the flag changes. */
  function Encode(dark: bool): (stored: string)
    ensures stored == "dark" || stored == "light"
    ensures Decode(Some(stored)) == dark
  {
    if dark then "dark" else "light"
  }

  /** The flag after `clicks` presses of the toggle button. */
  function Toggled(dark: bool, clicks: nat): bool {
    if clicks == 0 then dark else Toggle(Toggled(dark, clicks - 1))
  }

  /** Toggling twice restores the flag. */
  lemma ToggleTwice(dark: bool)
    ensures Toggle(Toggle(dark)) == dark
  {
  }

  /** After any number of presses the flag is the starting one exactly when
      the number is even. */
  lemma {:induction false} ToggledParity(dark: bool, clicks: nat)
    ensures Toggled(dark, clicks) == (if clicks % 2 == 0 then dark else !dark)
  {
    if clicks > 0 {
      ToggledParity(dark, clicks - 1);
    }
  }

  /** With nothing stored, or anything other than "dark", the page starts
      light. */
  lemma OnlyDarkStartsDark()
    ensures !Decode(None)
    ensures forall s :: s != "dark" ==> !Decode(Some(s))
    ensures !Decode(Some(Encode(false)))
    ensures Decode(Some(Encode(true)))
  {
  }
}
