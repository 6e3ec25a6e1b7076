/** Theme.swift: a named assignment of colours to the nine syntax roles, and the presets. */
module Themes {
  import opened Strings

  /**
   * A SwiftUI colour, kept as the expression that builds it: a system colour
   * (`Color.primary`), `Color(hex:)`, or `Color(red:green:blue:)`.
   */
  datatype Color = Named(name: string) | Hex(code: string) | Rgb(red: real, green: real, blue: real)

  /** The nine colour roles of a theme (and of `SemanticColor`). */
  datatype ColorRole =
    | StandardRole
    | CommentRole
    | KeywordRole
    | VariableRole
    | NumberRole
    | RecordNameRole
    | ClassRole
    | ProtocolRole
    | DefaultRole

  datatype Theme = Theme(
    name: string,
    standard: Color,
    comment: Color,
    keyword: Color,
    variable: Color,
    number: Color,
    recordName: Color,
    className: Color,
    protocolName: Color,
    defaultValue: Color)
  {
    /** The colour this theme gives to `role`. */
    function Get(role: ColorRole): Color {
      match role
      case StandardRole => standard
      case CommentRole => comment
      case KeywordRole => keyword
      case VariableRole => variable
      case NumberRole => number
      case RecordNameRole => recordName
      case ClassRole => className
      case ProtocolRole => protocolName
      case DefaultRole => defaultValue
    }
  }

  const System := Theme(
    "System",
    Named("primary"), Named("gray"), Named("pink"), Named("primary"), Named("primary"),
    Named("cyan"), Named("mint"), Named("teal"), Named("primary"))

  const XcodeLight := Theme(
    "Xcode Light",
    Hex("#000000"), Hex("#A0A0A0"), Hex("#0000FF"), Hex("#000000"), Hex("#1C00CF"),
    Hex("#C80000"), Hex("#6E2CA0"), Hex("#6E2CA0"), Hex("#000000"))

  const XcodeDark := Theme(
    "Xcode Dark",
    Hex("#FFFFFF"),
    Rgb(0.505882, 0.545098, 0.592157),
    Rgb(0.937255, 0.505882, 0.694118),
    Rgb(0.411765, 0.682353, 0.784314),
    Rgb(0.843137, 0.788235, 0.52549),
    Rgb(0.933333, 0.533333, 0.462745),
    Rgb(0.541176, 0.866667, 0.984314),
    Rgb(0.835294, 0.737255, 0.984314),
    Hex("#FFFFFF"))

  const GithubLight := Theme(
    "Github Light",
    Hex("#24292e"), Hex("#6a737d"), Hex("#d73a49"), Hex("#005cc5"), Hex("#005cc5"),
    Hex("#6f42c1"), Hex("#e36209"), Hex("#22863a"), Hex("#24292e"))

  const GithubDark := Theme(
    "GithubDark",
    Hex("#c9d1d9"), Hex("#8b949e"), Hex("#ff7b72"), Hex("#79c0ff"), Hex("#b392f0"),
    Hex("#d2a8ff"), Hex("#ffa657"), Hex("#7ee787"), Hex("#c9d1d9"))

  const SolarizedLight := Theme(
    "Solarized Light",
    Hex("#586e75"), Hex("#93a1a1"), Hex("#859900"), Hex("#268bd2"), Hex("#2aa198"),
    Hex("#6c71c4"), Hex("#d33682"), Hex("#cb4b16"), Hex("#586e75"))

  const SolarizedDark := Theme(
    "Solarized Dark",
    Hex("#93a1a1"), Hex("#586e75"), Hex("#b58900"), Hex("#268bd2"), Hex("#2aa198"),
    Hex("#6c71c4"), Hex("#d33682"), Hex("#cb4b16"), Hex("#93a1a1"))

  const Presets: seq<Theme> :=
    [System, XcodeLight, XcodeDark, GithubLight, GithubDark, SolarizedLight, SolarizedDark]

  /** No two presets share a name. */
  lemma PresetNamesDistinct()
    ensures forall i, j :: 0 <= i < j < |Presets| ==> Presets[i].name != Presets[j].name
  {
  }

  /** Each preset falls back to its standard colour. */
  lemma PresetDefaultIsStandard()
    ensures forall t :: t in Presets ==> t.defaultValue == t.standard
  {
  }

  /** The two Solarized presets differ only in text, comment and keyword colours. */
  lemma SolarizedShareAccents()
    ensures SolarizedLight.variable == SolarizedDark.variable
    ensures SolarizedLight.number == SolarizedDark.number
    ensures SolarizedLight.recordName == SolarizedDark.recordName
    ensures SolarizedLight.className == SolarizedDark.className
    ensures SolarizedLight.protocolName == SolarizedDark.protocolName
  {
  }

  /** The lower-cased names of the dark presets say "dark". */
  lemma DarkPresetsAreNamedDark()
    ensures Contains(Lower(XcodeDark.name), "dark")
    ensures Contains(Lower(GithubDark.name), "dark")
    ensures Contains(Lower(SolarizedDark.name), "dark")
  {
    assert Lower(XcodeDark.name)[6..10] == "dark";
    OccursAtContains(Lower(XcodeDark.name), "dark", 6);
    assert Lower(GithubDark.name)[6..10] == "dark";
    OccursAtContains(Lower(GithubDark.name), "dark", 6);
    assert Lower(SolarizedDark.name)[10..14] == "dark";
    OccursAtContains(Lower(SolarizedDark.name), "dark", 10);
  }

  lemma XcodeLightNotDark()
    ensures !Contains(Lower(XcodeLight.name), "dark")
  {
    MissingLetterNotContained(XcodeLight.name, "dark", 'k');
  }

  lemma GithubLightNotDark()
    ensures !Contains(Lower(GithubLight.name), "dark")
  {
    MissingLetterNotContained(GithubLight.name, "dark", 'k');
  }

  lemma SolarizedLightNotDark()
    ensures !Contains(Lower(SolarizedLight.name), "dark")
  {
    MissingLetterNotContained(SolarizedLight.name, "dark", 'k');
  }

  /** The lower-cased names of the light presets do not say "dark". */
  lemma LightPresetsAreNotNamedDark()
    ensures !Contains(Lower(XcodeLight.name), "dark")
    ensures !Contains(Lower(GithubLight.name), "dark")
    ensures !Contains(Lower(SolarizedLight.name), "dark")
  {
    XcodeLightNotDark();
    GithubLightNotDark();
    SolarizedLightNotDark();
  }
}
