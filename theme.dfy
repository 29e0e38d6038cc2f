/**
 * The light/dark theme store of `initTheme` (scripts.js:165-208).
 *
 * The browser's local storage slot under "growth-lab-theme" is an
 * `Option<string>` field; the OS colour-scheme query is a pair of booleans
 * (whether `matchMedia` exists, and whether it reports a dark preference),
 * passed to every operation that reads it, as the source re-queries it on
 * every call.
 */
module Theme {
  import opened Wrappers

  /** A stored value counts only when it is a non-empty string (JavaScript truthiness). */
  predicate IsSet(saved: Option<string>)
    ensures IsSet(saved) <==> saved.Some? && |saved.value| > 0
  {
    saved.Some? && saved.value != ""
  }

  /**
   * `getCurrentTheme` (scripts.js:168-177): the stored value, else the OS
   * preference, else "light".  The result is never empty, so once applied
   * it always wins on the next read.
   */
  function ResolveTheme(saved: Option<string>, hasMatchMedia: bool, prefersDark: bool): (theme: string)
    ensures theme != ""
    ensures IsSet(saved) ==> theme == saved.value
    ensures !IsSet(saved) ==> (theme == "dark" || theme == "light")
    ensures !IsSet(saved) ==> (theme == "dark" <==> hasMatchMedia && prefersDark)
  {
    if IsSet(saved) then saved.value
    else if hasMatchMedia then (if prefersDark then "dark" else "light")
    else "light"
  }

  /** The new theme chosen by `toggleTheme` (scripts.js:199): "light" flips to "dark", anything else to "light". */
  function Toggled(current: string): (next: string)
    ensures next == "dark" || next == "light"
    ensures next == "dark" <==> current == "light"
  {
    if current == "light" then "dark" else "light"
  }

  /** The storage slot after one toggle (scripts.js:197-201 with the write at scripts.js:185). */
  function StoreAfterToggle(saved: Option<string>, hasMatchMedia: bool, prefersDark: bool): (r: Option<string>)
    ensures IsSet(r) && (r.value == "dark" || r.value == "light")
    ensures IsSet(saved) && (saved.value == "light" || saved.value == "dark") ==> r.value != saved.value
    ensures !IsSet(saved) ==> (r.value == "light" <==> hasMatchMedia && prefersDark)
  {
    Some(Toggled(ResolveTheme(saved, hasMatchMedia, prefersDark)))
  }

  /**
   * Toggling twice from a stored "light" or "dark" restores it, whatever the
   * OS reports in between: the stored value always wins over the OS query.
   */
  lemma ToggleTwiceRestores(saved: Option<string>, mm1: bool, dark1: bool, mm2: bool, dark2: bool)
    requires saved == Some("light") || saved == Some("dark")
    ensures StoreAfterToggle(StoreAfterToggle(saved, mm1, dark1), mm2, dark2) == saved
  {
  }

  /** The theme-related page state: storage, the root element's class and attribute, and the toggle icons. */
  class ThemeController {
    var stored: Option<string>
    var darkThemeClass: bool
    var dataTheme: string
    var sunShown: bool
    var moonShown: bool

    /** The page shows what storage holds: dark exactly when the stored theme is "dark". */
    ghost predicate Valid()
      reads this
    {
      && IsSet(stored)
      && darkThemeClass == (stored.value == "dark")
      && dataTheme == (if darkThemeClass then "dark" else "light")
      && sunShown == !darkThemeClass
      && moonShown == darkThemeClass
    }

    /** Page load: `applyTheme(getCurrentTheme())` (scripts.js:204). */
    constructor (saved: Option<string>, hasMatchMedia: bool, prefersDark: bool)
      ensures Valid()
      ensures stored == Some(ResolveTheme(saved, hasMatchMedia, prefersDark))
    {
      var theme := ResolveTheme(saved, hasMatchMedia, prefersDark);
      var isDark := theme == "dark";
      darkThemeClass := isDark;
      dataTheme := if isDark then "dark" else "light";
      stored := Some(theme);
      sunShown := !isDark;
      moonShown := isDark;
    }

    /** `getCurrentTheme` against this page's storage. */
    method GetCurrentTheme(hasMatchMedia: bool, prefersDark: bool) returns (theme: string)
      ensures theme == ResolveTheme(stored, hasMatchMedia, prefersDark)
      ensures Valid() ==> theme == stored.value
    {
      theme := ResolveTheme(stored, hasMatchMedia, prefersDark);
    }

    /** `applyTheme` (scripts.js:179-195): the stored value becomes the applied theme. */
    method ApplyTheme(theme: string)
      modifies this
      ensures theme != "" ==> Valid()
      ensures stored == Some(theme)
      ensures darkThemeClass == (theme == "dark") && dataTheme == (if theme == "dark" then "dark" else "light")
    {
      var isDark := theme == "dark";
      darkThemeClass := isDark;
      dataTheme := if isDark then "dark" else "light";
      stored := Some(theme);
      sunShown := !isDark;
      moonShown := isDark;
    }

    /**
     * `toggleTheme` (scripts.js:197-202), wired to both toggle buttons.  It
     * reads storage afresh, so the flip is of what storage holds, which need
     * not be what the page shows when another page of the site wrote it.
     */
    method ToggleTheme(hasMatchMedia: bool, prefersDark: bool) returns (newTheme: string)
      modifies this
      ensures Valid()
      ensures newTheme == Toggled(ResolveTheme(old(stored), hasMatchMedia, prefersDark))
      ensures old(Valid()) ==> newTheme == Toggled(old(stored).value)
      ensures stored == Some(newTheme) == StoreAfterToggle(old(stored), hasMatchMedia, prefersDark)
    {
      var current := GetCurrentTheme(hasMatchMedia, prefersDark);
      newTheme := if current == "light" then "dark" else "light";
      ApplyTheme(newTheme);
    }
  }
}
