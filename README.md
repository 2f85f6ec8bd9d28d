# mangsh controller and configuration, modelled in Dafny

mangsh is a terminal application. This project models its application
controller and its small configuration layer:

- the four screens (Title, Main, Config, Menu);
- the key dispatch that moves between the screens, steps through the two
  Main tabs and cycles the nine colour themes;
- the theme registry: the cycle order, the default, the display labels, and
  the persisted names with their legacy aliases;
- the configuration record and how a missing theme defaults;
- the decisions taken when the configuration file is loaded and saved.

The operating system is replaced by inputs:

- the platform configuration directory is an `Option<Path>`;
- the outcome of reading the file is a `ReadOutcome` (`Contents`, `NotFound`
  or `ReadFailed`);
- the outcome of each of the three steps of writing the file is an `IoStep`.

The TOML document is modelled as the only record the program writes: the
empty document, or one `theme = "<name>"` line.

Files and modules:

- `wrappers.dfy` — `Wrappers`: `Option` and `Result`.
- `theme.dfy` — `ThemeRegistry` (`src/theme.rs`).
- `config.dfy` — `Configuration` (`src/config/mod.rs`).
- `loader.dfy` — `Loader` (`src/config/loader.rs`).
- `app.dfy` holds two modules:
  - `Navigation`: cyclic tab and theme steps, with their iteration lemmas;
  - `Controller`: the `App` class of `src/app.rs`.
- `scenarios.dfy` — `Scenarios`: sessions driven key by key, with the state
  checked after each key.

The `App` class keeps the invariant `Valid()`:

- the tab list is `["Hosts", "Session"]`;
- the selected tab exists;
- the active theme is the one the in-memory configuration selects.

Every method and the constructor preserve it.

## Model

| member | source | states |
|---|---|---|
| ThemeRegistry.DefaultTheme | src/theme.rs:19-23 | The default theme is the first entry of the cycle (Mango). |
| ThemeRegistry.AllThemes | src/theme.rs:25-37 | The cycle has nine entries. |
| ThemeRegistry.CycleHasNoRepeats | src/theme.rs:25-37 | No theme occurs twice in the cycle. |
| ThemeRegistry.EveryThemeInCycle | src/theme.rs:5-17 | Every variant of the enum occurs in the cycle, so the position search used by next/previous theme always succeeds. |
| ThemeRegistry.Position | src/app.rs:61 | Gives the first index holding the theme. It returns none exactly when the theme is absent. |
| ThemeRegistry.CyclePosition | src/app.rs:61 | Every theme has an index in the cycle, and the cycle holds that theme at that index. |
| ThemeRegistry.Label | src/theme.rs:39-52 | The fixed display string of each variant. Every label is non-empty and starts with a capital letter. |
| ThemeRegistry.LabelsDistinct | src/theme.rs:39-52 | Different themes have different labels. |
| ThemeRegistry.Name | src/theme.rs:3-17 | The canonical persisted name of each variant, the kebab-case form of its identifier and the only form printed. The function is a table; NameRoundTrip and AliasesNeverPrinted state its properties. |
| ThemeRegistry.Aliases | src/theme.rs:7-10 | The further names accepted when reading: "gruvbox" and "gruvbox-dark" for GruvboxDark, "catpuccin" for Catppuccin, none for the others. The function is a table; ParseName and AliasesNeverPrinted state its properties. |
| ThemeRegistry.ParseName | src/theme.rs:3-17 | A name is accepted only if it is a theme's canonical name or one of its aliases, and then it yields that theme. Every canonical name and alias is accepted. Any other name is rejected. |
| ThemeRegistry.NameRoundTrip | src/theme.rs:4 | Parsing a theme's printed name yields the same theme. |
| ThemeRegistry.AliasesNeverPrinted | src/theme.rs:7-10 | No alias is another theme's printed name. "gruvbox" and "catpuccin" are never printed. |
| ThemeRegistry.LegacyAliases | src/theme.rs:7-10 | "gruvbox" parses as GruvboxDark and "catpuccin" parses as Catppuccin, the same themes as their canonical names. |
| Configuration.DefaultConfig | src/config/mod.rs:7-10 | The default configuration has no theme. |
| Configuration.EffectiveTheme | src/config/mod.rs:13-15 | A configured theme is used as is. A missing theme falls back to the default theme. |
| Configuration.DefaultConfigSelectsMango | src/config/mod.rs:7-15 | The default configuration selects Mango, the first theme of the cycle. |
| Loader.Join | src/config/loader.rs:16 | Appends a component as `PathBuf::join` does on Unix: a separator goes in between unless the directory is empty or already ends in one. |
| Loader.JoinKeepsParts | src/config/loader.rs:16 | A joined path starts with the directory and ends with the component. The component follows a separator whenever the directory is non-empty, and at most one separator is added, none after a trailing one. |
| Loader.TrailingSeparatorIgnored | src/config/loader.rs:15-17 | For a non-empty directory that does not end in a separator, adding one trailing separator leaves the file path unchanged. `/x/cfg/` gives `/x/cfg/mangsh/config.toml`. |
| Loader.DefaultConfigPath | src/config/loader.rs:15-17 | There is a path exactly when there is a configuration directory, and it is `<dir>/mangsh/config.toml`. |
| Loader.Serialize | src/config/loader.rs:58 | The printed document is empty exactly when no theme is set. |
| Loader.ParseConfig | src/config/loader.rs:47-50 | Within the modelled TOML subset, only a blank document yields the empty record. Every rejection carries a non-empty message. |
| Loader.EntryInjective | src/config/loader.rs:58 | Different theme names give different printed documents. |
| Loader.SerializeWritesCanonicalName | src/config/loader.rs:58 | The document printed for a theme is the `theme` line of a name exactly when that name is the canonical one. So an alias that differs from the canonical name is never written. |
| Loader.EntryParses | src/config/loader.rs:47-50 | A `theme` line, with or without its line break, parses exactly as its name does. An unknown name is an error. |
| Loader.ConfigRoundTrip | src/config/loader.rs:47-58 | Printing a configuration and parsing it back yields that configuration. |
| Loader.LegacyEntriesParse | src/config/loader.rs:47-50 | A file naming a legacy alias loads the same configuration as one naming the canonical theme. |
| Loader.Load | src/config/loader.rs:19-45 | Covers every outcome. The path is always the default path. The advisory is absent exactly when the file was read and parsed, and then the parsed record is used. Otherwise the default record is used with the branch's message: no directory, not found, read error or parse error. |
| Loader.LoadConfig | src/config/loader.rs:19-45 | Building the record field by field, as the source does, yields the loading decision. |
| Loader.Save | src/config/loader.rs:52-64 | Without a directory nothing is written and the result is not an error. The save succeeds exactly when all three steps succeed, and then reports the default path. Otherwise the first failing step's error is returned. |
| Loader.SavedConfigLoadsBack | src/config/loader.rs:19-64 | A file that was saved loads back as the saved configuration, from the saved path, without an advisory. |
| Navigation.NextIndex | src/app.rs:47-49 | The next tab stays in range. It is the following index, or the first after the last. |
| Navigation.PreviousIndex | src/app.rs:51-57 | The previous tab stays in range. |
| Navigation.TabStepsAreInverse | src/app.rs:47-57 | Next then previous tab, and previous then next, restore the index. |
| Navigation.ThemeAfter | src/app.rs:59-65 | The next theme is the following cycle entry, or the first after the last. |
| Navigation.ThemeBefore | src/app.rs:67-73 | The previous theme is the preceding cycle entry, or the last before the first. |
| Navigation.CyclePositionOf | src/theme.rs:25-37 | Each cycle entry's position is its own index. |
| Navigation.ThemeAfterAt | src/app.rs:59-65 | From entry i, the next theme is the entry at the next index, `(i + 1) % 9`. |
| Navigation.ThemeBeforeAt | src/app.rs:67-73 | From entry i, the previous theme is the entry at the previous index. |
| Navigation.ThemeStepsAreInverse | src/app.rs:59-73 | Next then previous theme, and previous then next, restore the theme. |
| Navigation.ThemeAfterStepsThroughCycle | src/app.rs:59-65 | Repeated next-theme steps visit the cycle in order and wrap from the last entry to the first. |
| Navigation.FullCycle | src/app.rs:59-73 | Nine next-theme steps return to the starting theme, and so do nine previous-theme steps. |
| Controller.RecordSave | src/app.rs:78-89 | A successful save records its path and clears the advisory. A missing directory gives the "not persisted" advisory and keeps the path. A failure gives "Failed to save config: " with the error and keeps the path. |
| Controller.App.constructor | src/app.rs:32-45 | Starts on Title with tab 0. Takes the theme from the loaded configuration and copies config, path and advisory from the load result. |
| Controller.App.NextTab | src/app.rs:47-49 | Moves to the next tab and changes nothing else. |
| Controller.App.PreviousTab | src/app.rs:51-57 | Moves to the previous tab and changes nothing else. |
| Controller.App.SetTheme | src/app.rs:75-90 | The theme and the configured theme become the chosen theme whatever the save reports, so nothing is rolled back. Path and advisory follow RecordSave. |
| Controller.App.NextTheme | src/app.rs:59-65 | Sets the next theme of the cycle, with SetTheme's save behaviour. |
| Controller.App.PreviousTheme | src/app.rs:67-73 | Sets the previous theme of the cycle, with SetTheme's save behaviour. |
| Controller.App.HandleKey | src/app.rs:104-157 | `q` quits from every screen and changes nothing. A key the current screen does not bind changes nothing. Only the Config screen touches the theme and the persisted state. Each row of the per-screen transition table is stated, and the invariant is kept. |

## Left out

- Drawing the screens and the palettes (`src/ui/`) and the process entry point (`src/main.rs`): these are presentation and start-up only.
- The terminal plumbing of the event loop is not modelled: raw mode, terminal set-up and restore, drawing each frame, and the 50 ms polling. `Controller.App.HandleKey` is one iteration of the loop for one key press.
- Key modifiers and non-key events are left out. All key codes other than those the controller matches are one `Other` key. Key-event kinds (press, repeat, release) are not modelled either: `HandleKey` handles one delivered key press, whereas on Windows the terminal library also delivers releases as key events, which the source does not filter out.
- The `q` arms inside the Config, Main and Menu dispatch (`src/app.rs:128`, `:137`, `:153`) cannot be reached, because quit is handled first. `HandleKey` omits them, and its quit postcondition covers that case.
- Paths use the Unix separator `/`. Windows separators and prefixes are not modelled, and neither is joining an absolute component, since the program joins only the constant relative components `mangsh` and `config.toml`.
- Real file-system effects and the platform directory lookup are inputs. Errors from them are opaque strings.
- The TOML grammar is not modelled. Only the documents the program writes are parsed: the empty document, or one `theme = "<name>"` line with or without its line break. Any other text is an error in the model, even where the TOML library would accept it, as with comments, other spacing or single quotes. The texts of its error messages stand in for the library's diagnostics.
- ThemeRegistry.Name: lists the nine canonical names. It is not derived from the variant identifiers by the kebab-case rule, so that the derivation is not itself proved.
- Loader.Save: the text written is not modelled. The model takes it to be `Serialize(config)`, which cannot fail to print for this record.
- A write interrupted part-way leaves a partial file. That depends on crash timing and is not modelled.
- `config::schema` (declared in `src/config/mod.rs:2`) is not part of this model.
- The GruvboxDark alias list repeats its canonical name "gruvbox-dark". The model keeps that repetition, which is harmless.
