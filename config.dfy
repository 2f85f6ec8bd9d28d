/** The persisted user preferences: one optional theme. */
module Configuration {
  import opened Wrappers
  import opened ThemeRegistry

  /** The configuration record; an absent theme means "use the default". */
  datatype Config = Config(theme: Option<Theme>)

  /** The configuration used whenever nothing could be loaded. */
  function DefaultConfig(): (c: Config)
    ensures c.theme.None?
  {
    Config(None)
  }

  /** The theme the configuration selects, falling back to the default theme. */
  function EffectiveTheme(c: Config): (t: Theme)
    ensures c.theme.Some? ==> t == c.theme.value
    ensures c.theme.None? ==> t == DefaultTheme()
  {
    match c.theme
    case Some(t) => t
    case None => DefaultTheme()
  }

  /** With nothing configured, the first theme of the cycle (Mango) is active. */
  lemma DefaultConfigSelectsMango()
    ensures EffectiveTheme(DefaultConfig()) == Mango == AllThemes()[0]
  {
  }
}
