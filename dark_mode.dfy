/** The dark mode switch: the mode starts from the saved theme or, without
    one, from the system preference; each toggle flips it, marks the page
    and saves the new theme. */
module DarkMode {
  const ThemeKey := "theme"

  /** The mode a saved theme and the system preference select. */
  function InitialDark(saved: map<string, string>, prefersDark: bool): (r: bool)
    ensures ThemeKey in saved && saved[ThemeKey] == "dark" ==> r
    ensures ThemeKey in saved && saved[ThemeKey] == "light" ==> !r
    ensures (ThemeKey !in saved || saved[ThemeKey] !in {"dark", "light"}) ==> r == prefersDark
  {
    if ThemeKey in saved && saved[ThemeKey] == "dark" then true
    else if ThemeKey in saved && saved[ThemeKey] == "light" then false
    else prefersDark
  }

  /** The theme text a mode is saved as. */
  function ThemeText(dark: bool): (r: string)
    ensures r == "dark" || r == "light"
  {
    if dark then "dark" else "light"
  }

  /** A saved theme is read back as the mode that saved it. */
  lemma SavedThemeReadBack(saved: map<string, string>, dark: bool, prefersDark: bool)
    ensures InitialDark(saved[ThemeKey := ThemeText(dark)], prefersDark) == dark
  {
  }

  class DarkModeToggle {
    var dark: bool
    /** Whether the document element carries the `dark` class. */
    var pageDark: bool
    var storage: map<string, string>

    /** The switch state and the page class agree. */
    predicate Valid()
      reads this
    {
      pageDark == dark
    }

    /** Mounting: the initial mode, applied to the page; nothing is saved. */
    constructor (storage: map<string, string>, prefersDark: bool)
      ensures Valid()
      ensures dark == InitialDark(storage, prefersDark) && this.storage == storage
    {
      this.storage := storage;
      var d := InitialDark(storage, prefersDark);
      dark := d;
      pageDark := d;
    }

    /** `toggleDarkMode`. */
    method Toggle()
      requires Valid()
      modifies this
      ensures Valid()
      ensures dark == !old(dark)
      ensures storage == old(storage)[ThemeKey := ThemeText(dark)]
    {
      dark := !dark;
      pageDark := dark;
      storage := storage[ThemeKey := ThemeText(dark)];
    }
  }

  /** Toggling twice restores the mode and saves the mode it started in. */
  method ToggleTwice(t: DarkModeToggle)
    requires t.Valid()
    modifies t
    ensures t.Valid() && t.dark == old(t.dark)
    ensures t.storage == old(t.storage)[ThemeKey := ThemeText(old(t.dark))]
  {
    t.Toggle();
    t.Toggle();
  }
}
