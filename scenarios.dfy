/**
  Walk-throughs of the controller: a session as a user would drive it, with
  the state checked after every key.
 */
module Scenarios {
  import opened Wrappers
  import opened ThemeRegistry
  import opened Loader
  import opened Navigation
  import opened Controller

  /** Title -> Main, then the tab moves right and back, and `q` quits from Main. */
  method TabsSession()
  {
    var env := SaveEnv(None, SaveEffects(Done, Done, Done));
    var app := new App(None, NotFound);
    assert app.screen == Title && app.theme == Mango;
    assert app.configError == Some(NoDirMessage);

    var flow := app.HandleKey(Enter, env);
    assert flow == Continue && app.screen == Main && app.tabIndex == 0;
    flow := app.HandleKey(Right, env);
    assert app.tabIndex == 1;
    flow := app.HandleKey(Char('l'), env);
    assert app.tabIndex == 0;
    flow := app.HandleKey(Left, env);
    assert app.tabIndex == 1;
    flow := app.HandleKey(Char('q'), env);
    assert flow == Quit && app.screen == Main && app.tabIndex == 1;
  }

  /** Changing the theme on the Config screen persists it when a directory exists. */
  method ThemeSession()
  {
    var dir := Some("/home/u/.config");
    var env := SaveEnv(dir, SaveEffects(Done, Done, Done));
    var app := new App(dir, Contents(""));
    assert app.configError.None? && app.theme == Mango;

    var flow := app.HandleKey(Char('m'), env);
    assert app.screen == Menu;
    flow := app.HandleKey(Char('2'), env);
    assert app.screen == Config;
    ThemeAfterAt(0);
    flow := app.HandleKey(Right, env);
    assert app.theme == Forest && app.config.theme == Some(Forest);
    assert app.configPath == DefaultConfigPath(dir) && app.configError.None?;
  }

  /** Stepping back from the first theme wraps to the last; Esc does nothing on the Config screen. */
  method WrapBackSession(app: App, env: SaveEnv)
    requires app.Valid() && app.screen == Config && app.theme == Mango
    modifies app
  {
    ThemeBeforeAt(0);
    var flow := app.HandleKey(Left, env);
    assert app.theme == Matrix && app.config.theme == Some(Matrix);
    flow := app.HandleKey(Esc, env);
    assert flow == Continue && app.screen == Config && app.theme == Matrix;
  }

  /** Without a configuration directory a theme change is kept but reported as not persisted. */
  method NoDirectorySession()
  {
    var env := SaveEnv(None, SaveEffects(Done, Done, Done));
    var app := new App(None, NotFound);
    var flow := app.HandleKey(Char('m'), env);
    flow := app.HandleKey(Char('2'), env);
    assert app.screen == Config && app.theme == Mango;
    ThemeAfterAt(0);
    flow := app.HandleKey(Char('l'), env);
    assert app.theme == Forest && app.config.theme == Some(Forest);
    assert app.configError == Some(NotPersistedMessage) && app.configPath.None?;
  }

  /** A failing step of the save keeps the new theme and reports the failure. */
  method FailedSaveSession(app: App, dir: Path)
    requires app.Valid() && app.screen == Config && app.theme == GruvboxDark
    modifies app
  {
    var env := SaveEnv(Some(dir), SaveEffects(Done, IoFailed("permission denied"), Done));
    var path := app.configPath;
    ThemeAfterAt(3);
    var flow := app.HandleKey(Right, env);
    assert app.theme == GruvboxLight && app.config.theme == Some(GruvboxLight);
    assert app.configError == Some(SaveFailedPrefix + "permission denied") && app.configPath == path;
  }
}
