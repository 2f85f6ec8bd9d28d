/**
  Cyclic navigation: moving the selected tab of the Main screen and the
  active theme of the Config screen one step forward or back, with
  wrap-around at both ends.
 */
module Navigation {
  import opened ThemeRegistry

  /** The tab after `i`, wrapping to the first. */
  function NextIndex(i: nat, n: nat): (r: nat)
    requires i < n
    ensures r < n
    ensures r == if i == n - 1 then 0 else i + 1
  {
    (i + 1) % n
  }

  /** The tab before `i`, wrapping to the last. */
  function PreviousIndex(i: nat, n: nat): (r: nat)
    requires i < n
    ensures r < n
  {
    if i == 0 then n - 1 else i - 1
  }

  /** Moving forward then back, or back then forward, returns to the same tab. */
  lemma TabStepsAreInverse(i: nat, n: nat)
    requires i < n
    ensures PreviousIndex(NextIndex(i, n), n) == i
    ensures NextIndex(PreviousIndex(i, n), n) == i
  {
  }

  /** The theme after `t` in the cycle, wrapping from the last to the first. */
  function ThemeAfter(t: Theme): (r: Theme)
    ensures CyclePosition(t) < |AllThemes()| - 1 ==> r == AllThemes()[CyclePosition(t) + 1]
    ensures CyclePosition(t) == |AllThemes()| - 1 ==> r == AllThemes()[0]
  {
    var pos := CyclePosition(t);
    AllThemes()[if pos == |AllThemes()| - 1 then 0 else pos + 1]
  }

  /** The theme before `t` in the cycle, wrapping from the first to the last. */
  function ThemeBefore(t: Theme): (r: Theme)
    ensures CyclePosition(t) > 0 ==> r == AllThemes()[CyclePosition(t) - 1]
    ensures CyclePosition(t) == 0 ==> r == AllThemes()[|AllThemes()| - 1]
  {
    var pos := CyclePosition(t);
    AllThemes()[if pos == 0 then |AllThemes()| - 1 else pos - 1]
  }

  /** Every theme sits at exactly one place in the cycle. */
  lemma CyclePositionOf(i: nat)
    requires i < |AllThemes()|
    ensures CyclePosition(AllThemes()[i]) == i
  {
    CycleHasNoRepeats();
  }

  /** The theme steps move along the cycle's indices as the tab steps move along the tabs. */
  lemma ThemeAfterAt(i: nat)
    requires i < |AllThemes()|
    ensures ThemeAfter(AllThemes()[i]) == AllThemes()[NextIndex(i, |AllThemes()|)]
  {
    CyclePositionOf(i);
  }

  lemma ThemeBeforeAt(i: nat)
    requires i < |AllThemes()|
    ensures ThemeBefore(AllThemes()[i]) == AllThemes()[PreviousIndex(i, |AllThemes()|)]
  {
    CyclePositionOf(i);
  }

  /** Each theme step undoes the other. */
  lemma ThemeStepsAreInverse(t: Theme)
    ensures ThemeBefore(ThemeAfter(t)) == t
    ensures ThemeAfter(ThemeBefore(t)) == t
  {
    var n := |AllThemes()|;
    var p := CyclePosition(t);
    CyclePositionOf(if p < n - 1 then p + 1 else 0);
    CyclePositionOf(if p > 0 then p - 1 else n - 1);
  }

  /** `f` applied `k` times. */
  function Iterate<T>(f: T -> T, x: T, k: nat): T
  {
    if k == 0 then x else f(Iterate(f, x, k - 1))
  }

  /** `f` moves each element of `s` to the next one, and the last to the first. */
  ghost predicate StepsThrough<T>(f: T -> T, s: seq<T>)
  {
    && |s| > 0
    && (forall i :: 0 <= i < |s| - 1 ==> f(s[i]) == s[i + 1])
    && f(s[|s| - 1]) == s[0]
  }

  lemma {:induction false} IterateAdd<T>(f: T -> T, x: T, a: nat, b: nat)
    ensures Iterate(f, x, a + b) == Iterate(f, Iterate(f, x, a), b)
  {
    if b > 0 {
      IterateAdd(f, x, a, b - 1);
    }
  }

  lemma {:induction false} IterateWalk<T>(f: T -> T, s: seq<T>, i: nat, k: nat)
    requires StepsThrough(f, s) && i + k < |s|
    ensures Iterate(f, s[i], k) == s[i + k]
  {
    if k > 0 {
      IterateWalk(f, s, i, k - 1);
    }
  }

  /** Going once round a cycle returns to the start. */
  lemma IterateRound<T>(f: T -> T, s: seq<T>, i: nat)
    requires StepsThrough(f, s) && i < |s|
    ensures Iterate(f, s[i], |s|) == s[i]
  {
    var n := |s|;
    IterateWalk(f, s, i, n - 1 - i);
    assert Iterate(f, s[i], n - i) == s[0];
    IterateAdd(f, s[i], n - i, i);
    IterateWalk(f, s, 0, i);
  }

  /** `k` steps of `g` undo `k` steps of `f` when `g` undoes `f`. */
  lemma {:induction false} IterateUndo<T>(f: T -> T, g: T -> T, x: T, k: nat)
    requires forall y :: g(f(y)) == y
    ensures Iterate(g, Iterate(f, x, k), k) == x
  {
    if k > 0 {
      calc {
        Iterate(g, Iterate(f, x, k), k);
        { IterateAdd(g, f(Iterate(f, x, k - 1)), 1, k - 1); }
        Iterate(g, g(f(Iterate(f, x, k - 1))), k - 1);
        Iterate(g, Iterate(f, x, k - 1), k - 1);
        { IterateUndo(f, g, x, k - 1); }
        x;
      }
    }
  }

  /** `ThemeAfter` walks the cycle in order. */
  lemma ThemeAfterStepsThroughCycle()
    ensures StepsThrough(ThemeAfter, AllThemes())
  {
    var s := AllThemes();
    forall i | 0 <= i < |s| - 1
      ensures ThemeAfter(s[i]) == s[i + 1]
    {
      CyclePositionOf(i);
    }
    CyclePositionOf(|s| - 1);
  }

  /** Going once round the cycle forward returns to the start. */
  lemma ForwardRound(t: Theme)
    ensures Iterate(ThemeAfter, t, |AllThemes()|) == t
  {
    ThemeAfterStepsThroughCycle();
    IterateRound(ThemeAfter, AllThemes(), CyclePosition(t));
  }

  /** The previous-theme step undoes the next-theme step, as function values. */
  lemma BeforeUndoesAfter()
    ensures forall y :: ThemeBefore(ThemeAfter(y)) == y
  {
    forall y ensures ThemeBefore(ThemeAfter(y)) == y {
      ThemeStepsAreInverse(y);
    }
  }

  /** Stepping through the whole cycle, in either direction, returns to the start. */
  lemma FullCycle(t: Theme)
    ensures Iterate(ThemeAfter, t, |AllThemes()|) == t
    ensures Iterate(ThemeBefore, t, |AllThemes()|) == t
  {
    ForwardRound(t);
    BeforeUndoesAfter();
    IterateUndo(ThemeAfter, ThemeBefore, t, |AllThemes()|);
  }
}

/**
  The application controller: which screen is shown, which tab is selected,
  which theme is active, and what the last configuration I/O reported. Key
  presses drive a small state machine; changing the theme on the Config
  screen also saves the configuration.
 */
module Controller {
  import opened Wrappers
  import opened ThemeRegistry
  import C = Configuration
  import opened Loader
  import opened Navigation

  /** The top-level views. */
  datatype Screen = Title | Main | Config | Menu

  /** The key codes the controller distinguishes; `Other` is any other key. */
  datatype Key = Char(c: char) | Enter | Esc | Left | Right | Other

  /** Whether the interactive loop goes on after a key. */
  datatype Flow = Continue | Quit

  /** What the platform does when the configuration is saved during one step. */
  datatype SaveEnv = SaveEnv(configDir: Option<Path>, effects: SaveEffects)

  /** The tab titles of the Main screen. */
  const TabTitles: seq<string> := ["Hosts", "Session"]

  const NotPersistedMessage: string := "No config directory; theme not persisted."
  const SaveFailedPrefix: string := "Failed to save config: "

  // ---------------------------------------------------------------------
  // Recording a save.

  /** The location and advisory the controller keeps after a save: a save to
      a location records it and clears the advisory; otherwise the location
      stays and the advisory says why the theme may not persist. */
  function RecordSave(outcome: SaveOutcome, path: Option<Path>): (r: (Option<Path>, Option<string>))
    ensures r.1.None? <==> outcome.Saved?
    ensures r.0 == if outcome.Saved? then Some(outcome.path) else path
    ensures outcome.NoDir? ==> r.1 == Some(NotPersistedMessage)
    ensures outcome.Failed? ==> r.1 == Some(SaveFailedPrefix + outcome.message)
  {
    match outcome
    case Saved(p) => (Some(p), None)
    case NoDir => (path, Some(NotPersistedMessage))
    case Failed(err) => (path, Some(SaveFailedPrefix + err))
  }

  // ---------------------------------------------------------------------
  // Key classes.

  predicate IsMenuKey(key: Key) { key == Char('m') || key == Char('M') }
  predicate IsNextKey(key: Key) { key == Right || key == Char('l') }
  predicate IsPreviousKey(key: Key) { key == Left || key == Char('h') }

  /** The keys each screen reacts to, besides the global quit key. */
  predicate Bound(screen: Screen, key: Key)
  {
    match screen
    case Title => key == Enter || IsMenuKey(key)
    case Config => IsMenuKey(key) || IsNextKey(key) || IsPreviousKey(key)
    case Main => key == Char('c') || IsMenuKey(key) || IsNextKey(key) || IsPreviousKey(key)
    case Menu => key == Char('1') || key == Enter || key == Char('2') || key == Char('c') || key == Esc
  }

  // ---------------------------------------------------------------------
  // The application state.

  class App {
    var screen: Screen
    var tabs: seq<string>
    var tabIndex: nat
    var theme: Theme
    var config: C.Config
    var configPath: Option<Path>
    var configError: Option<string>

    /** The tab list is fixed, the selected tab exists, and the active theme
        is the one the in-memory configuration selects. */
    ghost predicate Valid()
      reads this
    {
      && tabs == TabTitles
      && tabIndex < |tabs|
      && theme == C.EffectiveTheme(config)
    }

    /** The preference part of the state: what only theme changes touch. */
    ghost function Prefs(): (Theme, C.Config, Option<Path>, Option<string>)
      reads this
    {
      (theme, config, configPath, configError)
    }

    /** Starts on the title screen with the first tab and the loaded configuration. */
    constructor (configDir: Option<Path>, read: ReadOutcome)
      ensures Valid()
      ensures screen == Title && tabIndex == 0
      ensures var loaded := Load(configDir, read);
        && theme == C.EffectiveTheme(loaded.config)
        && config == loaded.config
        && configPath == loaded.path
        && configError == loaded.error
    {
      var loaded := LoadConfig(configDir, read);
      screen := Title;
      tabs := TabTitles;
      tabIndex := 0;
      theme := C.EffectiveTheme(loaded.config);
      config := loaded.config;
      configPath := loaded.path;
      configError := loaded.error;
    }

    method NextTab()
      requires Valid()
      modifies this
      ensures Valid()
      ensures tabIndex == NextIndex(old(tabIndex), |tabs|)
      ensures screen == old(screen) && Prefs() == old(Prefs())
    {
      tabIndex := (tabIndex + 1) % |tabs|;
    }

    method PreviousTab()
      requires Valid()
      modifies this
      ensures Valid()
      ensures tabIndex == PreviousIndex(old(tabIndex), |tabs|)
      ensures screen == old(screen) && Prefs() == old(Prefs())
    {
      if tabIndex == 0 {
        tabIndex := |tabs| - 1;
      } else {
        tabIndex := tabIndex - 1;
      }
    }

    /** Makes `t` the active theme, then saves; the change is kept whatever
        the save reports. */
    method SetTheme(t: Theme, env: SaveEnv)
      requires Valid()
      modifies this
      ensures Valid()
      ensures theme == t && config == old(config).(theme := Some(t))
      ensures (configPath, configError) == RecordSave(Save(config, env.configDir, env.effects), old(configPath))
      ensures screen == old(screen) && tabIndex == old(tabIndex)
    {
      theme := t;
      config := config.(theme := Some(t));
      var outcome := Save(config, env.configDir, env.effects);
      match outcome {
        case Saved(path) =>
          configPath := Some(path);
          configError := None;
        case NoDir =>
          configError := Some(NotPersistedMessage);
        case Failed(err) =>
          configError := Some(SaveFailedPrefix + err);
      }
    }

    method NextTheme(env: SaveEnv)
      requires Valid()
      modifies this
      ensures Valid()
      ensures theme == ThemeAfter(old(theme)) && config == old(config).(theme := Some(theme))
      ensures (configPath, configError) == RecordSave(Save(config, env.configDir, env.effects), old(configPath))
      ensures screen == old(screen) && tabIndex == old(tabIndex)
    {
      var themes := AllThemes();
      EveryThemeInCycle(theme);
      match Position(themes, theme) {
        case Some(pos) =>
          var next := NextIndex(pos, |themes|);
          ThemeAfterAt(pos);
          SetTheme(themes[next], env);
      }
    }

    method PreviousTheme(env: SaveEnv)
      requires Valid()
      modifies this
      ensures Valid()
      ensures theme == ThemeBefore(old(theme)) && config == old(config).(theme := Some(theme))
      ensures (configPath, configError) == RecordSave(Save(config, env.configDir, env.effects), old(configPath))
      ensures screen == old(screen) && tabIndex == old(tabIndex)
    {
      var themes := AllThemes();
      EveryThemeInCycle(theme);
      match Position(themes, theme) {
        case Some(pos) =>
          var prev := PreviousIndex(pos, |themes|);
          ThemeBeforeAt(pos);
          SetTheme(themes[prev], env);
      }
    }

    /** One key press of the interactive loop. The quit key ends the loop from
        every screen before any screen looks at the key; every other key is
        dispatched on the current screen, and a key the screen does not bind
        changes nothing. */
    method HandleKey(key: Key, env: SaveEnv) returns (flow: Flow)
      requires Valid()
      modifies this
      ensures Valid()
      ensures flow == Quit <==> key == Char('q')
      ensures flow == Quit ==> unchanged(this)
      ensures !Bound(old(screen), key) ==> unchanged(this)
      // only the Config screen touches the theme and the persisted state
      ensures old(screen) != Config ==> Prefs() == old(Prefs())
      // Title
      ensures old(screen) == Title && key == Enter ==> screen == Main && tabIndex == 0
      ensures old(screen) == Title && IsMenuKey(key) ==> screen == Menu && tabIndex == old(tabIndex)
      // Menu
      ensures old(screen) == Menu && (key == Char('1') || key == Enter) ==> screen == Main && tabIndex == 0
      ensures old(screen) == Menu && (key == Char('2') || key == Char('c')) ==>
        screen == Config && tabIndex == old(tabIndex)
      ensures old(screen) == Menu && key == Esc ==> screen == Title && tabIndex == old(tabIndex)
      // Main
      ensures old(screen) == Main && key == Char('c') ==> screen == Config && tabIndex == old(tabIndex)
      ensures old(screen) == Main && IsMenuKey(key) ==> screen == Menu && tabIndex == old(tabIndex)
      ensures old(screen) == Main && IsNextKey(key) ==>
        screen == Main && tabIndex == NextIndex(old(tabIndex), |tabs|)
      ensures old(screen) == Main && IsPreviousKey(key) ==>
        screen == Main && tabIndex == PreviousIndex(old(tabIndex), |tabs|)
      // Config
      ensures old(screen) == Config && IsMenuKey(key) ==> screen == Menu && unchanged(this`tabIndex) && Prefs() == old(Prefs())
      ensures old(screen) == Config && (IsNextKey(key) || IsPreviousKey(key)) ==>
        && screen == Config && tabIndex == old(tabIndex)
        && theme == (if IsNextKey(key) then ThemeAfter(old(theme)) else ThemeBefore(old(theme)))
        && config == old(config).(theme := Some(theme))
        && (configPath, configError) == RecordSave(Save(config, env.configDir, env.effects), old(configPath))
    {
      if key == Char('q') {
        return Quit;
      }
      flow := Continue;
      match screen {
        case Title =>
          if key == Enter {
            screen := Main;
            tabIndex := 0;
          } else if IsMenuKey(key) {
            screen := Menu;
          }
        case Config =>
          if IsMenuKey(key) {
            screen := Menu;
          } else if IsNextKey(key) {
            NextTheme(env);
          } else if IsPreviousKey(key) {
            PreviousTheme(env);
          }
        case Main =>
          if key == Char('c') {
            screen := Config;
          } else if IsMenuKey(key) {
            screen := Menu;
          } else if IsNextKey(key) {
            NextTab();
          } else if IsPreviousKey(key) {
            PreviousTab();
          }
        case Menu =>
          if key == Char('1') || key == Enter {
            screen := Main;
            tabIndex := 0;
          } else if key == Char('2') || key == Char('c') {
            screen := Config;
          } else if key == Esc {
            screen := Title;
          }
      }
    }
  }
}
