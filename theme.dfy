/** Theme handling of theme.tsx: the preferred theme from the environment,
    normalising a stored string, and the provider's set/toggle state. */
module Theme {
  import opened Wrappers

  datatype ThemeMode = Light | Dark

  /** The string form of a theme, as stored. */
  function ThemeName(t: ThemeMode): string {
    match t
    case Light => "light"
    case Dark => "dark"
  }

  /** What `window.matchMedia` offers the page. */
  datatype MediaSupport =
    | NoMatchMedia                   // `window.matchMedia` is missing
    | MatchMediaThrows               // calling it throws
    | MatchMedia(prefersDark: bool)  // the dark-scheme query's `matches`

  /** The browser environment the provider starts in. */
  datatype Host =
    | NoWindow
    | Window(savedTheme: Option<string>, media: MediaSupport)

  /** `getPreferredTheme`. */
  function PreferredTheme(host: Host): (r: ThemeMode)
    ensures host.NoWindow? ==> r == Dark
    ensures host.Window? && host.media.MatchMediaThrows? ==> r == Dark
    ensures host.Window? && host.media.NoMatchMedia? ==> r == Light
    ensures host.Window? && host.media.MatchMedia? ==> (r == Dark <==> host.media.prefersDark)
  {
    match host
    case NoWindow => Dark
    case Window(_, media) =>
      match media
      case NoMatchMedia => Light
      case MatchMediaThrows => Dark
      case MatchMedia(prefersDark) => if prefersDark then Dark else Light
  }

  /** `normalizeTheme`: exactly the string "light" (case-sensitive) is light. */
  function NormalizeTheme(input: Option<string>): (r: ThemeMode)
    ensures r == Light <==> input == Some("light")
  {
    if input == Some("light") then Light else Dark
  }

  /** Both theme names normalise to their own theme, so normalising is idempotent. */
  lemma NormalizeThemeFixesNames(t: ThemeMode, input: Option<string>)
    ensures NormalizeTheme(Some(ThemeName(t))) == t
    ensures NormalizeTheme(Some(ThemeName(NormalizeTheme(input)))) == NormalizeTheme(input)
    ensures NormalizeTheme(Some("LIGHT")) == Dark && NormalizeTheme(None) == Dark
  {
    assert ThemeName(Dark) != "light";
    assert "LIGHT" != "light" by { assert "LIGHT"[0] != "light"[0]; }
  }

  /** The saved entry read at start-up: none without a window. */
  function SavedTheme(host: Host): Option<string> {
    match host
    case NoWindow => None
    case Window(saved, _) => saved
  }

  /** The initial theme: a saved non-empty entry wins and the system hint is
      then ignored; otherwise the preferred theme. */
  function InitialTheme(host: Host): (r: ThemeMode)
    ensures var saved := SavedTheme(host);
      saved.Some? && saved.value != "" ==> r == NormalizeTheme(saved)
    ensures var saved := SavedTheme(host);
      saved.None? || saved.value == "" ==> r == PreferredTheme(host)
  {
    var saved := SavedTheme(host);
    if saved.Some? && saved.value != "" then NormalizeTheme(saved) else PreferredTheme(host)
  }

  /** A theme that was saved is restored on the next start, whatever the media query says. */
  lemma SavedThemeRestored(t: ThemeMode, media: MediaSupport)
    ensures InitialTheme(Window(Some(ThemeName(t)), media)) == t
  {
    NormalizeThemeFixesNames(t, None);
  }

  /** The theme `toggleTheme` switches to. */
  function Toggled(t: ThemeMode): (r: ThemeMode)
    ensures r != t
  {
    if t == Dark then Light else Dark
  }

  /** Toggling twice restores the original theme. */
  lemma ToggleTwice(t: ThemeMode)
    ensures Toggled(Toggled(t)) == t
  {
  }

  /** `ThemeProvider`: the held theme and the storage entry it writes.
      A failed storage write is an input and does not affect the theme. */
  class ThemeProvider {
    var theme: ThemeMode
    var stored: Option<string>  // the `crystalyze.theme` storage entry

    constructor (host: Host)
      ensures theme == InitialTheme(host)
      ensures stored == SavedTheme(host)
    {
      theme := InitialTheme(host);
      stored := SavedTheme(host);
    }

    /** `setTheme`: the state changes even when persisting fails. */
    method SetTheme(next: ThemeMode, writeFails: bool)
      modifies this
      ensures theme == next
      ensures stored == if writeFails then old(stored) else Some(ThemeName(next))
    {
      theme := next;
      if !writeFails {
        stored := Some(ThemeName(next));
      }
    }

    /** `toggleTheme`: dark becomes light and light becomes dark. */
    method ToggleTheme(writeFails: bool)
      modifies this
      ensures theme == Toggled(old(theme))
      ensures stored == if writeFails then old(stored) else Some(ThemeName(theme))
    {
      SetTheme(Toggled(theme), writeFails);
    }
  }

  /** What a caller can rely on: a persisted choice survives a reload, and
      toggling twice leaves the theme where it was. */
  method ReloadAfterSet(next: ThemeMode, media: MediaSupport) returns (reloaded: ThemeMode, toggledBack: ThemeMode)
    ensures reloaded == next
    ensures toggledBack == next
  {
    var p := new ThemeProvider(Window(None, media));
    p.SetTheme(next, false);
    var q := new ThemeProvider(Window(p.stored, media));
    SavedThemeRestored(next, media);
    reloaded := q.theme;
    q.ToggleTheme(true);
    q.ToggleTheme(false);
    toggledBack := q.theme;
  }
}
