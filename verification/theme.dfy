/** `ThemeProvider` and `useTheme`: the stored theme choice, whether it
    resolves to dark, and the `dark` class on the document root. The OS
    colour-scheme preference is an input. */
module Theme {
  import opened Wrappers

  datatype Resolved = Light | Dark

  /** The provider's state cells and the root element's `dark` class. The
      theme is whatever string storage held: the cast in the source does
      not check it. */
  datatype ThemeState = ThemeState(theme: string, resolved: Resolved, rootDark: bool)

  /** A missing or empty stored theme means "system". */
  function StoredTheme(stored: Option<string>): (t: string)
    ensures t != ""
    ensures stored.None? || stored.value == "" ==> t == "system"
    ensures stored.Some? && stored.value != "" ==> t == stored.value
  {
    if stored.None? || stored.value == "" then "system" else stored.value
  }

  /** Dark exactly for "dark", or for "system" when the OS prefers dark;
      every other string is light. */
  predicate IsDark(theme: string, osDark: bool) {
    theme == "dark" || (theme == "system" && osDark)
  }

  /** The theme effect: resolve, then set the root class to match. */
  function Resolve(s: ThemeState, osDark: bool): (r: ThemeState)
    ensures r.theme == s.theme
    ensures r.rootDark == (r.resolved == Dark)
    ensures r.rootDark <==> r.theme == "dark" || (r.theme == "system" && osDark)
  {
    var dark := IsDark(s.theme, osDark);
    s.(resolved := if dark then Dark else Light, rootDark := dark)
  }

  /** The root class agrees with the resolved theme. */
  ghost predicate Synced(s: ThemeState) {
    s.rootDark == (s.resolved == Dark)
  }

  /** Mounting: state starts at "system"/light and the theme effect runs
      with it; the stored theme is then read, and the effect runs again if
      that changed the theme. */
  function Mount(stored: Option<string>, osDark: bool): (s: ThemeState)
    ensures s.theme == StoredTheme(stored)
    ensures s.rootDark <==> IsDark(StoredTheme(stored), osDark)
    ensures Synced(s)
  {
    var first := Resolve(ThemeState("system", Light, false), osDark);
    var t := StoredTheme(stored);
    if t == first.theme then first else Resolve(first.(theme := t), osDark)
  }

  /** The media-query listener as written: while the theme is "system" it
      updates the resolved theme, but it does not touch the root class. */
  function MediaChange(s: ThemeState, osDark: bool): (r: ThemeState)
    ensures r.theme == s.theme && r.rootDark == s.rootDark
    ensures s.theme == "system" ==> (r.resolved == Dark <==> osDark)
    ensures s.theme != "system" ==> r == s
  {
    if s.theme == "system" then s.(resolved := if osDark then Dark else Light) else s
  }

  /** With "system" chosen and a light OS, switching the OS to dark leaves
      the page light: the resolved theme says dark, the root class says light. */
  lemma MediaChangeLeavesRootStale()
    ensures var s := MediaChange(Mount(None, false), true);
      s.resolved == Dark && !s.rootDark && !Synced(s)
  {
  }

  /** The listener as evidently intended: the root class follows the OS
      preference along with the resolved theme. */
  function MediaChangeSynced(s: ThemeState, osDark: bool): (r: ThemeState)
    ensures r.theme == s.theme
    ensures s.theme == "system" ==> (r.rootDark <==> osDark) && Synced(r)
    ensures s.theme != "system" ==> r == s
  {
    if s.theme == "system" then Resolve(s, osDark) else s
  }

  datatype Event = OsChange(osDark: bool)

  /** The page's appearance over a run of OS preference changes, with the
      corrected listener. */
  function Run(s: ThemeState, events: seq<Event>): ThemeState
    decreases |events|
  {
    if events == [] then s else Run(MediaChangeSynced(s, events[0].osDark), events[1..])
  }

  /** With the corrected listener the root class never disagrees with the
      resolved theme, and under "system" it follows the latest OS setting. */
  lemma {:induction false} RunStaysSynced(s: ThemeState, events: seq<Event>)
    requires Synced(s)
    ensures Synced(Run(s, events))
    ensures events != [] && s.theme == "system" ==> (Run(s, events).rootDark <==> events[|events| - 1].osDark)
    ensures Run(s, events).theme == s.theme
    decreases |events|
  {
    if events != [] {
      var t := MediaChangeSynced(s, events[0].osDark);
      RunStaysSynced(t, events[1..]);
      if |events| > 1 {
        assert events[1..][|events[1..]| - 1] == events[|events| - 1];
      }
    }
  }

  /** `useTheme`'s own state and the storage cell it writes. */
  datatype Hook = Hook(theme: string, stored: Option<string>)

  function HookMount(stored: Option<string>): (h: Hook)
    ensures h.theme == StoredTheme(stored) && h.stored == stored
  {
    Hook(StoredTheme(stored), stored)
  }

  /** `setTheme(t)`: persist `t`, then show it. */
  function SetTheme(h: Hook, t: string): (r: Hook)
    ensures r.stored == Some(t) && r.theme == t
  {
    Hook(t, Some(t))
  }

  /** A chosen theme survives a reload: the next mount, of the hook or of
      the provider, reads back what `setTheme` stored. */
  lemma SetThemePersists(h: Hook, t: string, osDark: bool)
    requires t != ""
    ensures HookMount(SetTheme(h, t).stored).theme == t
    ensures Mount(SetTheme(h, t).stored, osDark).theme == t
    ensures Mount(SetTheme(h, t).stored, osDark).rootDark <==> IsDark(t, osDark)
  {
  }
}
