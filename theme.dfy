/**
  The theme registry: a closed set of visual themes, the hand-ordered cycle
  that the Config screen walks through, the default theme, the display labels,
  and the names under which a theme is persisted.
 */
module ThemeRegistry {
  import opened Wrappers

  /** The themes, in declaration order. */
  datatype Theme = Mango | GruvboxDark | GruvboxLight | Catppuccin | Light | Dark | Matrix | Forest | Night

  /** The theme used when the configuration names none. */
  function DefaultTheme(): (t: Theme)
    ensures t == AllThemes()[0]
  {
    Mango
  }

  /** The cycle order used by next/previous theme; it is not declaration order. */
  function AllThemes(): (s: seq<Theme>)
    ensures |s| == 9
  {
    [Mango, Forest, Night, GruvboxDark, GruvboxLight, Catppuccin, Light, Dark, Matrix]
  }

  /** No theme appears twice in the cycle. */
  lemma CycleHasNoRepeats()
    ensures forall i, j :: 0 <= i < j < |AllThemes()| ==> AllThemes()[i] != AllThemes()[j]
  {
  }

  /** Every variant has a place in the cycle, so the cycle lists each exactly once. */
  lemma EveryThemeInCycle(t: Theme)
    ensures t in AllThemes()
  {
    var s := AllThemes();
    assert s[0] == Mango && s[1] == Forest && s[2] == Night && s[3] == GruvboxDark && s[4] == GruvboxLight
      && s[5] == Catppuccin && s[6] == Light && s[7] == Dark && s[8] == Matrix;
  }

  /** The index of the first occurrence of `t` in `themes`, if any (Rust's `position`). */
  function Position(themes: seq<Theme>, t: Theme): (r: Option<nat>)
    ensures r.None? <==> t !in themes
    ensures r.Some? ==> r.value < |themes| && themes[r.value] == t && t !in themes[..r.value]
  {
    if themes == [] then None
    else if themes[0] == t then Some(0)
    else match Position(themes[1..], t)
      case None => None
      case Some(i) =>
        assert themes[..i + 1] == [themes[0]] + themes[1..][..i];
        Some(i + 1)
  }

  /** Where `t` stands in the cycle; every theme has a place there. */
  function CyclePosition(t: Theme): (i: nat)
    ensures i < |AllThemes()| && AllThemes()[i] == t
  {
    EveryThemeInCycle(t);
    Position(AllThemes(), t).value
  }

  /** The text shown for a theme in the user interface. */
  function Label(t: Theme): (s: string)
    ensures |s| > 0 && 'A' <= s[0] <= 'Z'
  {
    match t
    case Mango => "Mango"
    case Forest => "Forest"
    case Night => "Night"
    case GruvboxDark => "Gruvbox Dark"
    case GruvboxLight => "Gruvbox Light"
    case Catppuccin => "Catppuccin"
    case Light => "Light"
    case Dark => "Dark"
    case Matrix => "Matrix"
  }

  /** No two themes share a label. */
  lemma LabelsDistinct(a: Theme, b: Theme)
    ensures a != b ==> Label(a) != Label(b)
  {
  }

  /** The canonical persisted name of a theme (the kebab-case form of the
      variant's identifier); the only form ever written. */
  function Name(t: Theme): string
  {
    match t
    case Mango => "mango"
    case GruvboxDark => "gruvbox-dark"
    case GruvboxLight => "gruvbox-light"
    case Catppuccin => "catppuccin"
    case Light => "light"
    case Dark => "dark"
    case Matrix => "matrix"
    case Forest => "forest"
    case Night => "night"
  }

  /** The further names accepted when reading a theme. The list for
      GruvboxDark repeats its canonical name, as the declaration does. */
  function Aliases(t: Theme): set<string>
  {
    match t
    case GruvboxDark => {"gruvbox", "gruvbox-dark"}
    case Catppuccin => {"catpuccin"}
    case _ => {}
  }

  /** Reads a persisted theme name: the canonical name or a listed alias,
      compared exactly; anything else is rejected. */
  function ParseName(s: string): (r: Option<Theme>)
    ensures r.Some? ==> s == Name(r.value) || s in Aliases(r.value)
    ensures forall t :: s == Name(t) || s in Aliases(t) ==> r == Some(t)
  {
    if s == "mango" then Some(Mango)
    else if s == "gruvbox-dark" || s == "gruvbox" then Some(GruvboxDark)
    else if s == "gruvbox-light" then Some(GruvboxLight)
    else if s == "catppuccin" || s == "catpuccin" then Some(Catppuccin)
    else if s == "light" then Some(Light)
    else if s == "dark" then Some(Dark)
    else if s == "matrix" then Some(Matrix)
    else if s == "forest" then Some(Forest)
    else if s == "night" then Some(Night)
    else None
  }

  /** Parsing the printed name of any theme yields that theme. */
  lemma NameRoundTrip(t: Theme)
    ensures ParseName(Name(t)) == Some(t)
  {
  }

  /** Aliases never clash with another theme's name, and the two legacy
      spellings are never printed. */
  lemma AliasesNeverPrinted(t: Theme, u: Theme)
    ensures Name(u) in Aliases(t) ==> u == t
    ensures Name(u) != "gruvbox" && Name(u) != "catpuccin"
  {
  }

  /** The legacy aliases read as the themes they stand for. */
  lemma LegacyAliases()
    ensures ParseName("gruvbox") == ParseName(Name(GruvboxDark)) == Some(GruvboxDark)
    ensures ParseName("catpuccin") == ParseName(Name(Catppuccin)) == Some(Catppuccin)
  {
  }
}
