/** The theme store: one `theme` field, `'light'` to begin with, flipped by
    `toggleTheme` and set by `setTheme`. */
module ThemeStore {
  import opened JsCore

  /** `state.theme === 'light' ? 'dark' : 'light'` */
  function Toggled(theme: string): (r: string)
    ensures theme == "light" ==> r == "dark"
    ensures theme != "light" ==> r == "light"
  {
    if theme == "light" then "dark" else "light"
  }

  /** Toggling twice restores `light` and `dark`; any other value settles on `dark`. */
  lemma ToggleTwice(theme: string)
    ensures theme == "light" || theme == "dark" ==> Toggled(Toggled(theme)) == theme
    ensures theme != "light" && theme != "dark" ==> Toggled(Toggled(theme)) == "dark"
  {
  }

  class ThemeStore {
    var theme: string
    /** The `theme-storage` entry, written on every change. */
    var persisted: Option<string>

    /** A first visit starts light; a later one takes the stored theme. */
    constructor (stored: Option<string>)
      ensures stored.None? ==> theme == "light"
      ensures stored.Some? ==> theme == stored.value
      ensures persisted == stored
    {
      theme := if stored.Some? then stored.value else "light";
      persisted := stored;
    }

    method ToggleTheme()
      modifies this
      ensures theme == Toggled(old(theme)) && persisted == Some(theme)
    {
      theme := if theme == "light" then "dark" else "light";
      persisted := Some(theme);
    }

    method SetTheme(t: string)
      modifies this
      ensures theme == t && persisted == Some(t)
    {
      theme := t;
      persisted := Some(theme);
    }
  }
}
