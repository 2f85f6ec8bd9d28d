/**
  Loading and saving the configuration file. The operating system is not
  modelled: the platform's configuration directory, the outcome of reading
  the file and the outcome of each step of writing it are inputs.
 */
module Loader {
  import opened Wrappers
  import opened ThemeRegistry
  import opened Configuration

  /** A file-system location, as text. */
  type Path = string

  /** Whether a path ends in the separator. */
  predicate EndsInSeparator(p: Path)
  {
    |p| > 0 && p[|p| - 1] == '/'
  }

  /** A relative component appended to a directory, as `PathBuf::join` does on
      Unix: a separator goes between the two unless the directory is empty or
      already ends in one. */
  function Join(dir: Path, name: string): Path
  {
    if dir == "" || EndsInSeparator(dir) then dir + name else dir + "/" + name
  }

  /** A joined path starts with the directory and ends with the component;
      the component follows a separator whenever there is a directory, and
      at most one separator is added. */
  lemma JoinKeepsParts(dir: Path, name: string)
    ensures var p := Join(dir, name);
      && |dir| + |name| <= |p| <= |dir| + 1 + |name|
      && p[..|dir|] == dir && p[|p| - |name|..] == name
      && (|dir| > 0 ==> p[|p| - |name| - 1] == '/')
      && (EndsInSeparator(dir) || dir == "" ==> |p| == |dir| + |name|)
  {
  }

  /** `<config dir>/mangsh/config.toml`, or nothing when the platform has no configuration directory. */
  function DefaultConfigPath(configDir: Option<Path>): (r: Option<Path>)
    ensures r.Some? <==> configDir.Some?
    ensures r.Some? ==> r.value == Join(Join(configDir.value, "mangsh"), "config.toml")
  {
    match configDir
    case None => None
    case Some(dir) => Some(Join(Join(dir, "mangsh"), "config.toml"))
  }

  /** A configuration directory given with one trailing separator yields the
      same file path as the directory without it. */
  lemma TrailingSeparatorIgnored(dir: Path)
    requires dir != "" && !EndsInSeparator(dir)
    ensures DefaultConfigPath(Some(dir + "/")) == DefaultConfigPath(Some(dir))
    ensures DefaultConfigPath(Some("/x/cfg/")) == Some("/x/cfg/mangsh/config.toml")
  {
    assert Join(dir + "/", "mangsh") == Join(dir, "mangsh");
    assert Join("/x/cfg/", "mangsh") == "/x/cfg/mangsh";
    assert Join("/x/cfg/mangsh", "config.toml") == "/x/cfg/mangsh/config.toml";
  }

  // ---------------------------------------------------------------------
  // The file format: a TOML document holding at most the key `theme`.

  const EntryPrefix: string := "theme = \""

  /** The `theme = "<name>"` line, without its line break. */
  function Entry(name: string): string
  {
    EntryPrefix + name + "\""
  }

  /** What the pretty TOML printer writes: nothing for an absent theme,
      otherwise one line naming the theme canonically. */
  function Serialize(c: Config): (text: string)
    ensures text == "" <==> c.theme.None?
  {
    match c.theme
    case None => ""
    case Some(t) => Entry(Name(t)) + "\n"
  }

  /** Different names give different `theme` lines. */
  lemma EntryInjective(a: string, b: string)
    ensures Entry(a) + "\n" == Entry(b) + "\n" ==> a == b
  {
    if Entry(a) + "\n" == Entry(b) + "\n" {
      var ta, tb := Entry(a) + "\n", Entry(b) + "\n";
      assert |a| == |b|;
      assert a == ta[|EntryPrefix|..|ta| - 2];
      assert b == tb[|EntryPrefix|..|tb| - 2];
    }
  }

  /** The document printed for a theme names it by its canonical name and by
      no other spelling, so an alias is never written. */
  lemma SerializeWritesCanonicalName(t: Theme, a: string)
    ensures Serialize(Config(Some(t))) == Entry(a) + "\n" <==> a == Name(t)
    ensures a in Aliases(t) && a != Name(t) ==> Serialize(Config(Some(t))) != Entry(a) + "\n"
  {
    EntryInjective(a, Name(t));
  }

  /** Reads a configuration file. A blank document is the empty record; a
      `theme = "<name>"` line (with or without its line break) is read with
      the theme-name parser; anything else is an error whose text stands for
      the TOML library's diagnostic. */
  function ParseConfig(text: string): (r: Result<Config, string>)
    ensures r.Ok? && r.value.theme.None? ==> text == "" || text == "\n"
    ensures r.Err? ==> |r.error| > 0
  {
    var body := if |text| > 0 && text[|text| - 1] == '\n' then text[..|text| - 1] else text;
    if body == "" then Ok(Config(None))
    else if |body| > |EntryPrefix| && body[..|EntryPrefix|] == EntryPrefix && body[|body| - 1] == '"' then
      var name := body[|EntryPrefix|..|body| - 1];
      match ParseName(name)
      case Some(t) => Ok(Config(Some(t)))
      case None => Err("unknown variant `" + name + "`")
    else Err("expected `theme = \"<name>\"`")
  }

  /** A `theme` line is read exactly as its name is: a canonical name or an
      alias yields its theme, any other name is rejected. */
  lemma EntryParses(name: string, lineBreak: bool)
    ensures ParseConfig(Entry(name) + (if lineBreak then "\n" else "")) ==
      match ParseName(name)
      case Some(t) => Ok(Config(Some(t)))
      case None => Err("unknown variant `" + name + "`")
  {
    var e := Entry(name);
    var text := e + (if lineBreak then "\n" else "");
    var body := if |text| > 0 && text[|text| - 1] == '\n' then text[..|text| - 1] else text;
    assert body == e by {
      if lineBreak {
        assert text[..|text| - 1] == e;
      } else {
        assert e[|e| - 1] == '"';
      }
    }
    assert body[..|EntryPrefix|] == EntryPrefix;
    assert body[|EntryPrefix|..|body| - 1] == name;
  }

  /** Printing a configuration and reading it back gives the same configuration. */
  lemma ConfigRoundTrip(c: Config)
    ensures ParseConfig(Serialize(c)) == Ok(c)
  {
    if c.theme.Some? {
      var t := c.theme.value;
      EntryParses(Name(t), true);
      NameRoundTrip(t);
    }
  }

  /** The legacy spellings read as the theme whose canonical name is written. */
  lemma LegacyEntriesParse()
    ensures ParseConfig(Entry("gruvbox") + "\n") == ParseConfig(Serialize(Config(Some(GruvboxDark))))
    ensures ParseConfig(Entry("catpuccin") + "\n") == ParseConfig(Serialize(Config(Some(Catppuccin))))
  {
    EntryParses("gruvbox", true);
    EntryParses("catpuccin", true);
    ConfigRoundTrip(Config(Some(GruvboxDark)));
    ConfigRoundTrip(Config(Some(Catppuccin)));
    LegacyAliases();
  }

  // ---------------------------------------------------------------------
  // Loading.

  /** The result of loading: a usable configuration, where it lives, and an advisory. */
  datatype LoadedConfig = LoadedConfig(config: Config, path: Option<Path>, error: Option<string>)

  /** What reading the configuration file produced. */
  datatype ReadOutcome = Contents(text: string) | NotFound | ReadFailed(message: string)

  const NoDirMessage: string := "No config directory available; using defaults."
  const NotFoundMessage: string := "Config not found; using defaults."
  const ReadFailedPrefix: string := "Unable to read config: "
  const ParseFailedPrefix: string := "Unable to parse config: "

  /** The loading decision: every outcome yields a usable configuration, and
      the advisory is absent exactly when the file was read and parsed. */
  function Load(configDir: Option<Path>, read: ReadOutcome): (r: LoadedConfig)
    ensures r.path == DefaultConfigPath(configDir)
    ensures r.error.None? <==> configDir.Some? && read.Contents? && ParseConfig(read.text).Ok?
    ensures r.error.None? ==> r.config == ParseConfig(read.text).value
    ensures r.error.Some? ==> r.config == DefaultConfig() && |r.error.value| > 0
    ensures configDir.None? ==> r.error == Some(NoDirMessage)
    ensures configDir.Some? && read.NotFound? ==> r.error == Some(NotFoundMessage)
    ensures configDir.Some? && read.ReadFailed? ==> r.error == Some(ReadFailedPrefix + read.message)
    ensures configDir.Some? && read.Contents? && ParseConfig(read.text).Err? ==>
      r.error == Some(ParseFailedPrefix + ParseConfig(read.text).error)
  {
    var path := DefaultConfigPath(configDir);
    match path
    case None => LoadedConfig(DefaultConfig(), path, Some(NoDirMessage))
    case Some(_) =>
      match read
      case Contents(text) =>
        (match ParseConfig(text)
         case Ok(cfg) => LoadedConfig(cfg, path, None)
         case Err(err) => LoadedConfig(DefaultConfig(), path, Some(ParseFailedPrefix + err)))
      case NotFound => LoadedConfig(DefaultConfig(), path, Some(NotFoundMessage))
      case ReadFailed(err) => LoadedConfig(DefaultConfig(), path, Some(ReadFailedPrefix + err))
  }

  /** Builds the result with defaults first and overwrites the configuration
      or the advisory according to what reading the file produced. */
  method LoadConfig(configDir: Option<Path>, read: ReadOutcome) returns (loaded: LoadedConfig)
    ensures loaded == Load(configDir, read)
  {
    var path := DefaultConfigPath(configDir);
    loaded := LoadedConfig(DefaultConfig(), path, None);
    if path.Some? {
      match read {
        case Contents(text) =>
          var parsed := ParseConfig(text);
          match parsed {
            case Ok(cfg) => loaded := loaded.(config := cfg);
            case Err(err) => loaded := loaded.(error := Some(ParseFailedPrefix + err));
          }
        case NotFound =>
          loaded := loaded.(error := Some(NotFoundMessage));
        case ReadFailed(err) =>
          loaded := loaded.(error := Some(ReadFailedPrefix + err));
      }
    } else {
      loaded := loaded.(error := Some(NoDirMessage));
    }
  }

  // ---------------------------------------------------------------------
  // Saving.

  /** The outcome of one file-system step. */
  datatype IoStep = Done | IoFailed(message: string)

  /** The outcomes of the three steps of writing the file, in order:
      creating the directory, creating (truncating) the file, writing it. */
  datatype SaveEffects = SaveEffects(createDir: IoStep, createFile: IoStep, write: IoStep)

  /** `Ok(Some(path))`, `Ok(None)` and `Err(e)` of the save operation. */
  datatype SaveOutcome = Saved(path: Path) | NoDir | Failed(message: string)

  /** Saves `config` as `Serialize(config)`. Without a configuration directory
      there is nothing to do and that is not an error; otherwise the first
      failing step ends the save with its error. */
  function Save(config: Config, configDir: Option<Path>, effects: SaveEffects): (r: SaveOutcome)
    ensures r.NoDir? <==> configDir.None?
    ensures r.Saved? <==> configDir.Some? && effects.createDir.Done? && effects.createFile.Done? && effects.write.Done?
    ensures r.Saved? ==> DefaultConfigPath(configDir) == Some(r.path)
    ensures configDir.Some? && effects.createDir.IoFailed? ==> r == Failed(effects.createDir.message)
    ensures configDir.Some? && effects.createDir.Done? && effects.createFile.IoFailed? ==>
      r == Failed(effects.createFile.message)
    ensures configDir.Some? && effects.createDir.Done? && effects.createFile.Done? && effects.write.IoFailed? ==>
      r == Failed(effects.write.message)
  {
    match DefaultConfigPath(configDir)
    case None => NoDir
    case Some(path) =>
      if effects.createDir.IoFailed? then Failed(effects.createDir.message)
      else if effects.createFile.IoFailed? then Failed(effects.createFile.message)
      // the text written is Serialize(config); printing this record cannot fail
      else if effects.write.IoFailed? then Failed(effects.write.message)
      else Saved(path)
  }

  /** A file that was saved loads back as the configuration that was saved,
      from the same location and without an advisory. */
  lemma SavedConfigLoadsBack(config: Config, configDir: Option<Path>, effects: SaveEffects)
    requires Save(config, configDir, effects).Saved?
    ensures Load(configDir, Contents(Serialize(config))) ==
      LoadedConfig(config, Some(Save(config, configDir, effects).path), None)
  {
    ConfigRoundTrip(config);
  }
}
