// The colour theme (index.js:371-423): the choice of the initial theme, the
// toggle, and setTheme with the icon and label updates it makes.
//
// The `data-theme` attribute of the document element and the stored `theme`
// entry are fields. The `prefers-color-scheme: light` media query is an
// input, false also when `matchMedia` is missing.
module Theme {
  import opened Wrappers

  const Light: string := "light"
  const Dark: string := "dark"

  /** The crescent moon shown in light mode, the sun (with its emoji
      presentation selector) otherwise. */
  const MoonIcon: string := "\U{1F319}"
  const SunIcon: string := "\U{2600}\U{FE0F}"

  /** getSystemPreference: light exactly when the media query matches. */
  function SystemPreference(prefersLight: bool): (theme: string)
    ensures theme == Light <==> prefersLight
    ensures theme == Light || theme == Dark
  {
    if prefersLight then Light else Dark
  }

  /** initTheme's choice, `storedTheme || getSystemPreference()`: a stored
      value wins unless it is missing or empty. It is taken as it is, even
      when it is neither "light" nor "dark". */
  function InitialTheme(stored: Option<string>, prefersLight: bool): (theme: string)
    ensures stored.Some? && stored.value != "" ==> theme == stored.value
    ensures stored.None? || stored.value == "" ==> theme == SystemPreference(prefersLight)
  {
    if stored.Some? && stored.value != "" then stored.value else SystemPreference(prefersLight)
  }

  /** toggleTheme's choice. A missing or empty attribute counts as "dark",
      so it and "dark" give "light"; every other value gives "dark". */
  function ToggledTheme(attribute: Option<string>): (theme: string)
    ensures theme == Light <==> attribute.None? || attribute.value == "" || attribute.value == Dark
    ensures theme == Light || theme == Dark
  {
    var current := if attribute.Some? && attribute.value != "" then attribute.value else Dark;
    if current == Dark then Light else Dark
  }

  /** The icon both theme buttons show. */
  function ThemeIcon(theme: string): (icon: string)
    ensures icon == MoonIcon <==> theme == Light
    ensures icon == MoonIcon || icon == SunIcon
  {
    if theme == Light then MoonIcon else SunIcon
  }

  /** The aria-label (and title) of the theme buttons: the action a click
      performs. */
  function ToggleLabel(theme: string): (caption: string)
    ensures caption == "Switch to dark mode" <==> theme == Light
    ensures caption == "Switch to dark mode" || caption == "Switch to light mode"
  {
    if theme == Light then "Switch to dark mode" else "Switch to light mode"
  }

  /** Toggling switches between the two themes. */
  lemma ToggleAlternates(theme: string)
    requires theme == Light || theme == Dark
    ensures ToggledTheme(Some(theme)) != theme
    ensures ToggledTheme(Some(ToggledTheme(Some(theme)))) == theme
  {
  }

  /** A stored theme other than the two (say a stale value) is kept at load,
      and the first toggle turns it into "dark". */
  lemma OtherStoredThemeToggles(prefersLight: bool)
    ensures InitialTheme(Some("blue"), prefersLight) == "blue"
    ensures ToggledTheme(Some(InitialTheme(Some("blue"), prefersLight))) == Dark
  {
  }

  /** The page's theme state. */
  class ThemeControl {
    var dataTheme: Option<string>
    var stored: Option<string>
    var icon: string
    var toggleLabel: string

    /** Attribute, storage, icon and label all show the same theme. */
    predicate Consistent()
      reads this
    {
      && dataTheme.Some?
      && stored == dataTheme
      && icon == ThemeIcon(dataTheme.value)
      && toggleLabel == ToggleLabel(dataTheme.value)
    }

    /** The script's start: initTheme() against what storage holds. */
    constructor (storedTheme: Option<string>, prefersLight: bool)
      ensures dataTheme == Some(InitialTheme(storedTheme, prefersLight))
      ensures Consistent()
    {
      var theme := InitialTheme(storedTheme, prefersLight);
      dataTheme, stored := Some(theme), Some(theme);
      icon, toggleLabel := ThemeIcon(theme), ToggleLabel(theme);
    }

    /** setTheme plus updateThemeIcon. */
    method SetTheme(theme: string)
      modifies this
      ensures dataTheme == Some(theme) && stored == Some(theme)
      ensures icon == ThemeIcon(theme) && toggleLabel == ToggleLabel(theme)
      ensures Consistent()
    {
      dataTheme := Some(theme);
      stored := Some(theme);
      icon := ThemeIcon(theme);
      toggleLabel := ToggleLabel(theme);
    }

    /** initTheme, reading the stored value. */
    method InitTheme(prefersLight: bool)
      modifies this
      ensures dataTheme == Some(InitialTheme(old(stored), prefersLight))
      ensures Consistent()
    {
      var theme := InitialTheme(stored, prefersLight);
      SetTheme(theme);
    }

    /** The click handler of both theme buttons. */
    method ToggleTheme()
      modifies this
      ensures dataTheme == Some(ToggledTheme(old(dataTheme)))
      ensures Consistent()
      ensures icon == MoonIcon <==> dataTheme == Some(Light)
    {
      var current := if dataTheme.Some? && dataTheme.value != "" then dataTheme.value else Dark;
      var next := if current == Dark then Light else Dark;
      SetTheme(next);
    }
  }
}
