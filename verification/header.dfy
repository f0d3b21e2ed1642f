/** The page header's theme switch: a two-valued theme, read from storage on
    mount, toggled by a button, and mirrored after every change into the
    page body's class and into storage. */
module Header {
  import opened JsValues
  import opened BrowserStorage

  const ThemeKey: string := "theme"
  const DarkMode: string := "dark-mode"
  const LightMode: string := "light-mode"

  predicate IsValidTheme(theme: string) {
    theme == DarkMode || theme == LightMode
  }

  /** The theme on mount: the stored value, or dark mode when nothing (or an
      empty string) is stored. */
  function InitialTheme(stored: Option<string>): (theme: string)
    ensures stored.Some? && stored.value != "" ==> theme == stored.value
    ensures stored.None? || stored.value == "" ==> theme == DarkMode
    ensures theme != ""
  {
    if stored.Some? && stored.value != "" then stored.value else DarkMode
  }

  /** `toggleTheme`'s new value: light after dark, dark after anything else. */
  function Toggled(theme: string): (next: string)
    ensures IsValidTheme(next)
    ensures next == LightMode <==> theme == DarkMode
  {
    if theme == DarkMode then LightMode else DarkMode
  }

  /** The toggle button's icon: a sun in dark mode, a moon otherwise. */
  function ToggleIcon(theme: string): (icon: string)
    ensures icon == "🌞" <==> theme == DarkMode
    ensures icon == "🌞" || icon == "🌙"
  {
    if theme == DarkMode then "🌞" else "🌙"
  }

  /** The theme after `n` clicks on the toggle. */
  function ToggledTimes(theme: string, n: nat): string {
    if n == 0 then theme else Toggled(ToggledTimes(theme, n - 1))
  }

  /** On a valid theme the toggle is an involution. */
  lemma ToggleTwiceRestores(theme: string)
    requires IsValidTheme(theme)
    ensures Toggled(Toggled(theme)) == theme
  {
  }

  /** From a valid theme, an even number of clicks returns to it and an odd
      number lands on the other one; one click from any start suffices to
      reach a valid theme. */
  lemma {:induction false} ToggledTimesParity(theme: string, n: nat)
    requires IsValidTheme(theme) || n > 0
    ensures IsValidTheme(ToggledTimes(theme, n))
    ensures IsValidTheme(theme) ==>
      ToggledTimes(theme, n) == if n % 2 == 0 then theme else Toggled(theme)
  {
    if n > 0 {
      if IsValidTheme(theme) || n - 1 > 0 {
        ToggledTimesParity(theme, n - 1);
      }
      if IsValidTheme(theme) {
        ToggleTwiceRestores(theme);
      }
    }
  }

  /** The header's state: the theme, the body's class name it writes, and
      the shared storage. */
  class ThemeSwitch {
    const store: LocalStorage
    var theme: string
    var bodyClassName: string

    /** After every effect run, the body's class and the stored value both
        equal the theme. */
    ghost predicate Synced()
      reads this, store
    {
      bodyClassName == theme && ThemeKey in store.items && store.items[ThemeKey] == theme
    }

    /** Mounting: read the stored theme, then run the persistence effect. */
    constructor (store: LocalStorage, bodyClassName: string)
      modifies store
      ensures this.store == store
      ensures theme == InitialTheme(old(store.GetItem(ThemeKey)))
      ensures Synced()
      ensures store.items == old(store.items)[ThemeKey := theme]
    {
      this.store := store;
      this.bodyClassName := bodyClassName;
      theme := InitialTheme(store.GetItem(ThemeKey));
      new;
      ApplyTheme();
    }

    /** The effect that runs after every theme change. */
    method ApplyTheme()
      modifies this`bodyClassName, store
      ensures Synced()
      ensures store.items == old(store.items)[ThemeKey := theme]
    {
      bodyClassName := theme;
      store.SetItem(ThemeKey, theme);
    }

    /** A click on the toggle button, followed by the effect. */
    method ToggleTheme()
      modifies this, store
      ensures theme == Toggled(old(theme)) && IsValidTheme(theme)
      ensures Synced()
      ensures store.items == old(store.items)[ThemeKey := theme]
    {
      theme := Toggled(theme);
      ApplyTheme();
    }
  }
}
