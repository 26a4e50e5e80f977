/** The colour theme: the initial choice (a stored choice, else the system
    preference, else light), the toggle, and the system-preference listener
    that should only act while the user has not chosen a theme. */
module ThemeContext {
  import opened Common

  datatype Theme = Light | Dark

  function ThemeName(t: Theme): (s: string)
    ensures s == "light" || s == "dark"
  {
    match t
    case Light => "light"
    case Dark => "dark"
  }

  /** `getInitialTheme`: `saved` is the stored `theme` key, `hasMatchMedia`
      whether the browser offers media queries, `prefersDark` whether the
      dark colour-scheme query matches. */
  function InitialTheme(saved: Option<string>, hasMatchMedia: bool, prefersDark: bool): (t: Theme)
    ensures saved == Some("light") ==> t == Light
    ensures saved == Some("dark") ==> t == Dark
    ensures saved != Some("light") && saved != Some("dark") ==> (t == Dark <==> hasMatchMedia && prefersDark)
  {
    if saved == Some("light") then Light
    else if saved == Some("dark") then Dark
    else if hasMatchMedia && prefersDark then Dark
    else Light
  }

  /** A stored theme name reads back as that theme, whatever the system prefers. */
  lemma InitialThemeReadsBack(t: Theme, hasMatchMedia: bool, prefersDark: bool)
    ensures InitialTheme(Some(ThemeName(t)), hasMatchMedia, prefersDark) == t
  {
  }

  /** `toggleTheme`. */
  function Toggle(t: Theme): (r: Theme)
    ensures r != t
  {
    if t == Light then Dark else Light
  }

  lemma ToggleTwice(t: Theme)
    ensures Toggle(Toggle(t)) == t
  {
  }

  /** `!localStorage.getItem('theme')`: no key, or an empty one. */
  predicate Unset(saved: Option<string>) {
    saved.None? || saved == Some("")
  }

  /** The theme on screen and the stored `theme` key. */
  datatype ThemeStore = ThemeStore(theme: Theme, saved: Option<string>)

  /** The system-preference listener: the new preference is taken only while
      no theme is stored. */
  function SystemChanged(ts: ThemeStore, matches: bool): (r: ThemeStore)
    ensures r.saved == ts.saved
    ensures Unset(ts.saved) ==> r.theme == (if matches then Dark else Light)
    ensures !Unset(ts.saved) ==> r == ts
  {
    if Unset(ts.saved) then ts.(theme := if matches then Dark else Light) else ts
  }

  /** Mounting as written: the effect that applies the theme also stores it,
      so the key is set from the first render on. */
  function MountAsWritten(saved: Option<string>, hasMatchMedia: bool, prefersDark: bool): (r: ThemeStore)
    ensures r.theme == InitialTheme(saved, hasMatchMedia, prefersDark)
    ensures r.saved == Some(ThemeName(r.theme))
  {
    var t := InitialTheme(saved, hasMatchMedia, prefersDark);
    ThemeStore(t, Some(ThemeName(t)))
  }

  /** As written, a system-preference change after mounting never changes
      the theme, even when the user never chose one. */
  lemma SystemChangeIgnoredAsWritten(saved: Option<string>, hasMatchMedia: bool, prefersDark: bool, matches: bool)
    ensures var ts := MountAsWritten(saved, hasMatchMedia, prefersDark);
            SystemChanged(ts, matches) == ts
  {
  }

  /** No stored theme, a light system at start-up that then turns dark: the
      theme stays light. */
  lemma SystemTurnsDarkAsWritten()
    ensures SystemChanged(MountAsWritten(None, true, false), true).theme == Light
  {
    SystemChangeIgnoredAsWritten(None, true, false, true);
  }

  /** Mounting with the theme stored only when the user picks one: the key
      keeps whatever was there. */
  function Mount(saved: Option<string>, hasMatchMedia: bool, prefersDark: bool): (r: ThemeStore)
    ensures r.theme == InitialTheme(saved, hasMatchMedia, prefersDark)
    ensures r.saved == saved
  {
    ThemeStore(InitialTheme(saved, hasMatchMedia, prefersDark), saved)
  }

  /** The user's toggle flips the theme and stores the choice. */
  function Toggled(ts: ThemeStore): (r: ThemeStore)
    ensures r.theme != ts.theme
    ensures r.saved == Some(ThemeName(r.theme)) && !Unset(r.saved)
  {
    var t := Toggle(ts.theme);
    ThemeStore(t, Some(ThemeName(t)))
  }

  /** Until the user picks a theme, the theme follows the system preference. */
  lemma SystemChangeFollowed(saved: Option<string>, hasMatchMedia: bool, prefersDark: bool, matches: bool)
    requires Unset(saved)
    ensures SystemChanged(Mount(saved, hasMatchMedia, prefersDark), matches).theme == (if matches then Dark else Light)
  {
  }

  /** Once the user has toggled, system changes leave the theme alone. */
  lemma ToggledThenSystemIgnored(ts: ThemeStore, matches: bool)
    ensures SystemChanged(Toggled(ts), matches) == Toggled(ts)
  {
  }

  class ThemeProvider {
    var theme: Theme
    /** The `theme` key. */
    var saved: Option<string>

    /** Mounting as written: the initial theme, which the effect then
        stores, so the key is set from here on. */
    constructor (saved: Option<string>, hasMatchMedia: bool, prefersDark: bool)
      ensures ThemeStore(theme, this.saved) == MountAsWritten(saved, hasMatchMedia, prefersDark)
      ensures theme == InitialTheme(saved, hasMatchMedia, prefersDark)
      ensures this.saved == Some(ThemeName(theme)) && !Unset(this.saved)
    {
      var ts := MountAsWritten(saved, hasMatchMedia, prefersDark);
      theme := ts.theme;
      this.saved := ts.saved;
    }

    method ToggleTheme()
      modifies this
      ensures ThemeStore(theme, saved) == Toggled(old(ThemeStore(theme, saved)))
      ensures theme != old(theme) && !Unset(saved)
    {
      var ts := Toggled(ThemeStore(theme, saved));
      theme := ts.theme;
      saved := ts.saved;
    }

    /** The media-query listener, with `matches` the new dark preference. */
    method OnSystemChange(matches: bool)
      modifies this
      ensures ThemeStore(theme, saved) == SystemChanged(old(ThemeStore(theme, saved)), matches)
      ensures !Unset(old(saved)) ==> theme == old(theme)
    {
      var ts := SystemChanged(ThemeStore(theme, saved), matches);
      theme := ts.theme;
    }
  }
}
