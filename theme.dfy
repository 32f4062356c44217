/** The light/dark theme preference. The persisted entry is a single
    optional string (absent until first written); applyTheme writes its
    argument through immediately, and the toggle button derives the next
    value from what is stored. */
module Theme {
  import opened Wrappers

  /** The theme the toggle button reads back: only a stored "light" counts
      as light, anything else (absent included) as dark. */
  function CurrentTheme(stored: Option<string>): (t: string)
    ensures t == "light" || t == "dark"
    ensures t == "light" <==> stored == Some("light")
  {
    if stored == Some("light") then "light" else "dark"
  }

  /** The opposite theme. */
  function Opposite(theme: string): (t: string)
    ensures t == "light" <==> theme != "light"
    ensures t == "light" || t == "dark"
  {
    if theme == "light" then "dark" else "light"
  }

  /** The value the toggle button writes. */
  function Toggled(stored: Option<string>): string {
    Opposite(CurrentTheme(stored))
  }

  /** The value init writes back: the saved string, or "dark" when nothing
      is saved or the saved string is empty (both are falsy). */
  function Restored(stored: Option<string>): string {
    if stored == None || stored == Some("") then "dark" else stored.value
  }

  /** A stored "light" toggles to "dark"; every other stored value, absent
      included, toggles to "light". */
  lemma ToggleRule(stored: Option<string>)
    ensures Toggled(stored) == (if stored == Some("light") then "dark" else "light")
    ensures Toggled(stored) != CurrentTheme(stored)
  {
  }

  /** Two toggles bring the theme back to the one that was in effect. */
  lemma ToggleTwice(stored: Option<string>)
    ensures Toggled(Some(Toggled(stored))) == CurrentTheme(stored)
  {
  }

  /** Init keeps a saved, non-empty value and otherwise defaults to dark. */
  lemma RestoreRule(stored: Option<string>)
    ensures Restored(stored) == "dark" <==> (stored == None || stored == Some("") || stored == Some("dark"))
    ensures stored.Some? && stored.value != "" ==> Restored(stored) == stored.value
    ensures CurrentTheme(Some(Restored(stored))) == CurrentTheme(stored)
  {
  }

  /** The persisted preference, updated in place. */
  class ThemeStore {
    var stored: Option<string>

    constructor (saved: Option<string>)
      ensures stored == saved
    {
      stored := saved;
    }

    /** applyTheme: the value is written through immediately. */
    method ApplyTheme(theme: string)
      modifies this
      ensures stored == Some(theme)
    {
      stored := Some(theme);
    }

    /** The toggle button. */
    method Toggle()
      modifies this
      ensures stored == Some(Toggled(old(stored)))
      ensures CurrentTheme(stored) != CurrentTheme(old(stored))
    {
      var cur := if stored == Some("light") then "light" else "dark";
      var next := if cur == "light" then "dark" else "light";
      ApplyTheme(next);
    }

    /** init's restore step. */
    method Restore()
      modifies this
      ensures stored == Some(Restored(old(stored)))
      ensures CurrentTheme(stored) == CurrentTheme(old(stored))
    {
      var saved := if stored == None || stored == Some("") then "dark" else stored.value;
      ApplyTheme(saved);
    }
  }

  /** From a fresh start (nothing saved) init stores "dark", and two toggles
      then store "light" and "dark". */
  method FreshStart() returns (afterInit: string, afterFirst: string, afterSecond: string)
    ensures afterInit == "dark" && afterFirst == "light" && afterSecond == "dark"
  {
    var store := new ThemeStore(None);
    store.Restore();
    afterInit := store.stored.value;
    store.Toggle();
    afterFirst := store.stored.value;
    store.Toggle();
    afterSecond := store.stored.value;
  }
}
