/**
 * CodePreferences.swift: the code viewer's appearance settings. Applying a
 * theme writes its nine colours to the preferences store and remembers its
 * name; the light/dark toggle picks the other preset of the same family from
 * words in the remembered name.
 */
module Preferences {
  import opened Common
  import opened Strings
  import opened Themes
  import opened SemanticColors

  const DefaultThemeName := "system"
  const DefaultFontSize := 16
  const DefaultFontName := "SFMono-Regular"
  const MinFontSize := 8
  const MaxFontSize := 24

  /** How many colours `apply(from:)` writes. */
  const RoleCount := 9

  /** The `i`-th role `apply(from:)` writes. */
  function WriteOrder(i: nat): ColorRole
    requires i < RoleCount
  {
    match i
    case 0 => StandardRole
    case 1 => CommentRole
    case 2 => KeywordRole
    case 3 => VariableRole
    case 4 => NumberRole
    case 5 => RecordNameRole
    case 6 => ClassRole
    case 7 => ProtocolRole
    case _ => DefaultRole
  }

  /** Where a role sits in the write order: every role is written. */
  function WriteIndex(role: ColorRole): (i: nat)
    ensures i < RoleCount && WriteOrder(i) == role
  {
    match role
    case StandardRole => 0
    case CommentRole => 1
    case KeywordRole => 2
    case VariableRole => 3
    case NumberRole => 4
    case RecordNameRole => 5
    case ClassRole => 6
    case ProtocolRole => 7
    case DefaultRole => 8
  }

  /** One write to the store: a key and the string stored under it. */
  datatype Write = Write(key: string, value: string)

  /** The store after the first `n` of `writes`, in order. */
  function WriteAll(store: Store, writes: seq<Write>, n: nat): Store
    requires n <= |writes|
  {
    if n == 0 then store
    else WriteAll(store, writes, n - 1)[writes[n - 1].key := writes[n - 1].value]
  }

  /** No two writes share a key. */
  ghost predicate DistinctKeys(writes: seq<Write>) {
    forall a, b :: 0 <= a < b < |writes| ==> writes[a].key != writes[b].key
  }

  /** With distinct keys, each write done is what its key holds. */
  lemma {:induction false} WriteAllReadsBack(store: Store, writes: seq<Write>, n: nat, i: nat)
    requires i < n <= |writes| && DistinctKeys(writes)
    ensures writes[i].key in WriteAll(store, writes, n)
    ensures WriteAll(store, writes, n)[writes[i].key] == writes[i].value
  {
    if i < n - 1 {
      WriteAllReadsBack(store, writes, n - 1, i);
    }
  }

  /** A key no write names is left as it was. */
  lemma {:induction false} WriteAllKeepsOtherKeys(store: Store, writes: seq<Write>, n: nat, k: string)
    requires n <= |writes|
    requires forall i :: 0 <= i < |writes| ==> writes[i].key != k
    ensures k in WriteAll(store, writes, n) <==> k in store
    ensures k in store ==> WriteAll(store, writes, n)[k] == store[k]
  {
    if n > 0 {
      WriteAllKeepsOtherKeys(store, writes, n - 1, k);
    }
  }

  /** The nine writes of `apply(from:)`: each role's key and the hex string of the theme's colour. */
  function ThemeWrites(codec: HexCodec, theme: Theme): (ws: seq<Write>)
    ensures |ws| == RoleCount
  {
    seq(RoleCount, i requires 0 <= i < RoleCount => Write(RoleKey(WriteOrder(i)), codec.toHex(theme.Get(WriteOrder(i)))))
  }

  lemma WriteOrderInjective(i: nat, j: nat)
    requires i < RoleCount && j < RoleCount && i != j
    ensures WriteOrder(i) != WriteOrder(j)
  {
  }

  /** The nine roles are written under nine different keys. */
  lemma ThemeWritesDistinct(codec: HexCodec, theme: Theme)
    ensures DistinctKeys(ThemeWrites(codec, theme))
  {
    var ws := ThemeWrites(codec, theme);
    forall a, b | 0 <= a < b < |ws|
      ensures ws[a].key != ws[b].key
    {
      WriteOrderInjective(a, b);
      RoleKeysDistinct(WriteOrder(a), WriteOrder(b));
    }
  }

  /** One more write extends the first `k` writes. */
  lemma WriteStep(store: Store, codec: HexCodec, theme: Theme, k: nat)
    requires k < RoleCount
    ensures WriteAll(store, ThemeWrites(codec, theme), k + 1)
         == Wrapper(WriteOrder(k)).Set(WriteAll(store, ThemeWrites(codec, theme), k), codec, theme.Get(WriteOrder(k)))
  {
  }

  /** The store after `apply(from:)` wrote the nine colours of `theme`. */
  function Applied(store: Store, codec: HexCodec, theme: Theme): Store {
    WriteAll(store, ThemeWrites(codec, theme), RoleCount)
  }

  /** After applying a theme, every role shows the theme's colour, as it comes back from its hex string. */
  lemma AppliedReadsBack(store: Store, codec: HexCodec, theme: Theme, role: ColorRole)
    ensures ColorOf(Applied(store, codec, theme), codec, role) == codec.fromHex(codec.toHex(theme.Get(role)))
  {
    ThemeWritesDistinct(codec, theme);
    WriteAllReadsBack(store, ThemeWrites(codec, theme), RoleCount, WriteIndex(role));
  }

  /** Applying a theme touches no key but the nine colour keys. */
  lemma AppliedKeepsOtherKeys(store: Store, codec: HexCodec, theme: Theme, k: string)
    requires forall role :: k != RoleKey(role)
    ensures k in Applied(store, codec, theme) <==> k in store
    ensures k in store ==> Applied(store, codec, theme)[k] == store[k]
  {
    var ws := ThemeWrites(codec, theme);
    assert forall i :: 0 <= i < |ws| ==> ws[i].key == RoleKey(WriteOrder(i));
    WriteAllKeepsOtherKeys(store, ws, RoleCount, k);
  }

  /** The nine colour writes of `apply(from:)`, in the source's order. */
  method WriteColors(store: Store, codec: HexCodec, theme: Theme) returns (r: Store)
    ensures r == Applied(store, codec, theme)
  {
    r := store;
    r := Wrapper(StandardRole).Set(r, codec, theme.standard);
    r := Wrapper(CommentRole).Set(r, codec, theme.comment);
    r := Wrapper(KeywordRole).Set(r, codec, theme.keyword);
    r := Wrapper(VariableRole).Set(r, codec, theme.variable);
    r := Wrapper(NumberRole).Set(r, codec, theme.number);
    r := Wrapper(RecordNameRole).Set(r, codec, theme.recordName);
    r := Wrapper(ClassRole).Set(r, codec, theme.className);
    r := Wrapper(ProtocolRole).Set(r, codec, theme.protocolName);
    r := Wrapper(DefaultRole).Set(r, codec, theme.defaultValue);
    WriteStep(store, codec, theme, 0);
    WriteStep(store, codec, theme, 1);
    WriteStep(store, codec, theme, 2);
    WriteStep(store, codec, theme, 3);
    WriteStep(store, codec, theme, 4);
    WriteStep(store, codec, theme, 5);
    WriteStep(store, codec, theme, 6);
    WriteStep(store, codec, theme, 7);
    WriteStep(store, codec, theme, 8);
  }

  /**
   * The preset `toggleThemeBasedOnColorScheme` applies for a remembered
   * theme name, or `None` when it leaves everything as it is.
   */
  function ToggleTarget(selected: string): (r: Option<Theme>)
    ensures r.Some? <==>
      (Lower(selected) != "system" &&
       (Contains(Lower(selected), "xcode") || Contains(Lower(selected), "github") || Contains(Lower(selected), "solarized")))
    ensures r.Some? ==> r.value in Presets[1..]
  {
    var lowered := Lower(selected);
    if lowered == "system" then None
    else if Contains(lowered, "xcode") then
      Some(if Contains(lowered, "dark") then XcodeLight else XcodeDark)
    else if Contains(lowered, "github") then
      Some(if Contains(lowered, "dark") then GithubLight else GithubDark)
    else if Contains(lowered, "solarized") then
      Some(if Contains(lowered, "dark") then SolarizedLight else SolarizedDark)
    else None
  }

  /**
   * The toggle only ever applies one of the six non-System presets, and it
   * flips darkness: a name that says "dark" gets a preset whose name does not,
   * and the other way round.
   */
  lemma ToggleTargetFlipsDarkness(selected: string)
    ensures ToggleTarget(selected).Some? ==>
      ToggleTarget(selected).value in Presets[1..]
      && (Contains(Lower(selected), "dark") <==> !Contains(Lower(ToggleTarget(selected).value.name), "dark"))
  {
    if ToggleTarget(selected).Some? {
      var t := ToggleTarget(selected).value;
      if Contains(Lower(selected), "dark") {
        assert t == XcodeLight || t == GithubLight || t == SolarizedLight;
        LightPresetsAreNotNamedDark();
      } else {
        assert t == XcodeDark || t == GithubDark || t == SolarizedDark;
        DarkPresetsAreNamedDark();
      }
      assert t in Presets[1..];
    }
  }

  /** A name holding none of the family words is left alone. */
  lemma ToggleIgnoresOtherNames(selected: string)
    requires !Contains(Lower(selected), "xcode")
    requires !Contains(Lower(selected), "github")
    requires !Contains(Lower(selected), "solarized")
    ensures ToggleTarget(selected) == None
  {
  }

  lemma SystemNotToggled()
    ensures ToggleTarget(System.name) == None
  {
    assert Lower(System.name) == "system";
  }

  lemma NotSystem(name: string)
    requires |name| != 6
    ensures Lower(name) != "system"
  {
  }

  /** The family words a preset name does not hold, one name and word at a time. */
  lemma GithubLightLacksXcode()
    ensures !Contains(Lower(GithubLight.name), "xcode")
  {
    MissingLetterNotContained(GithubLight.name, "xcode", 'x');
  }

  lemma GithubDarkLacksXcode()
    ensures !Contains(Lower(GithubDark.name), "xcode")
  {
    MissingLetterNotContained(GithubDark.name, "xcode", 'x');
  }

  lemma SolarizedLightLacksXcode()
    ensures !Contains(Lower(SolarizedLight.name), "xcode")
  {
    MissingLetterNotContained(SolarizedLight.name, "xcode", 'x');
  }

  lemma SolarizedDarkLacksXcode()
    ensures !Contains(Lower(SolarizedDark.name), "xcode")
  {
    MissingLetterNotContained(SolarizedDark.name, "xcode", 'x');
  }

  lemma SolarizedLightLacksGithub()
    ensures !Contains(Lower(SolarizedLight.name), "github")
  {
    MissingLetterNotContained(SolarizedLight.name, "github", 'b');
  }

  lemma SolarizedDarkLacksGithub()
    ensures !Contains(Lower(SolarizedDark.name), "github")
  {
    MissingLetterNotContained(SolarizedDark.name, "github", 'b');
  }

  lemma XcodeLightToggles()
    ensures ToggleTarget(XcodeLight.name) == Some(XcodeDark)
  {
    NotSystem(XcodeLight.name);
    LowerPrefixContains(XcodeLight.name, "xcode");
    XcodeLightNotDark();
  }

  lemma XcodeDarkToggles()
    ensures ToggleTarget(XcodeDark.name) == Some(XcodeLight)
  {
    NotSystem(XcodeDark.name);
    LowerPrefixContains(XcodeDark.name, "xcode");
    DarkPresetsAreNamedDark();
  }

  lemma GithubLightToggles()
    ensures ToggleTarget(GithubLight.name) == Some(GithubDark)
  {
    NotSystem(GithubLight.name);
    GithubLightLacksXcode();
    LowerPrefixContains(GithubLight.name, "github");
    GithubLightNotDark();
  }

  lemma GithubDarkToggles()
    ensures ToggleTarget(GithubDark.name) == Some(GithubLight)
  {
    NotSystem(GithubDark.name);
    GithubDarkLacksXcode();
    LowerPrefixContains(GithubDark.name, "github");
    DarkPresetsAreNamedDark();
  }

  lemma SolarizedLightToggles()
    ensures ToggleTarget(SolarizedLight.name) == Some(SolarizedDark)
  {
    NotSystem(SolarizedLight.name);
    SolarizedLightLacksXcode();
    SolarizedLightLacksGithub();
    LowerPrefixContains(SolarizedLight.name, "solarized");
    SolarizedLightNotDark();
  }

  lemma SolarizedDarkToggles()
    ensures ToggleTarget(SolarizedDark.name) == Some(SolarizedLight)
  {
    NotSystem(SolarizedDark.name);
    SolarizedDarkLacksXcode();
    SolarizedDarkLacksGithub();
    LowerPrefixContains(SolarizedDark.name, "solarized");
    DarkPresetsAreNamedDark();
  }

  /** The two Xcode presets toggle into each other. */
  lemma XcodeTogglesBack()
    ensures ToggleTarget(Presets[1].name) == Some(Presets[2])
    ensures ToggleTarget(Presets[2].name) == Some(Presets[1])
  {
    XcodeLightToggles();
    XcodeDarkToggles();
  }

  /** The two Github presets toggle into each other. */
  lemma GithubTogglesBack()
    ensures ToggleTarget(Presets[3].name) == Some(Presets[4])
    ensures ToggleTarget(Presets[4].name) == Some(Presets[3])
  {
    GithubLightToggles();
    GithubDarkToggles();
  }

  /** The two Solarized presets toggle into each other. */
  lemma SolarizedTogglesBack()
    ensures ToggleTarget(Presets[5].name) == Some(Presets[6])
    ensures ToggleTarget(Presets[6].name) == Some(Presets[5])
  {
    SolarizedLightToggles();
    SolarizedDarkToggles();
  }

  /**
   * The System preset is never toggled (`SystemNotToggled`); each other
   * preset toggles to the other preset of its family, which sits next to it
   * in `Presets`, so toggling twice comes back.
   */
  lemma ToggleTwiceReturns()
    ensures ToggleTarget(Presets[1].name) == Some(Presets[2])
    ensures ToggleTarget(Presets[2].name) == Some(Presets[1])
    ensures ToggleTarget(Presets[3].name) == Some(Presets[4])
    ensures ToggleTarget(Presets[4].name) == Some(Presets[3])
    ensures ToggleTarget(Presets[5].name) == Some(Presets[6])
    ensures ToggleTarget(Presets[6].name) == Some(Presets[5])
  {
    XcodeTogglesBack();
    GithubTogglesBack();
    SolarizedTogglesBack();
  }

  /**
   * `CodePreferences`. `colors` is read through the store (`ColorOf`); the
   * other settings are `@AppStorage` values, seeded from what the store held
   * when the object was made.
   */
  class CodePreferences {
    var store: Store
    var selectedTheme: string
    var hideLineNumbers: bool
    var fontSize: int
    var fontName: string
    const minFontSize: int
    const maxFontSize: int
    const codec: HexCodec

    constructor (store: Store, codec: HexCodec, storedTheme: Option<string>, storedHideLineNumbers: Option<bool>,
                 storedFontSize: Option<int>, storedFontName: Option<string>)
      ensures this.store == store && this.codec == codec
      ensures selectedTheme == storedTheme.GetOr(DefaultThemeName)
      ensures hideLineNumbers == storedHideLineNumbers.GetOr(true)
      ensures fontSize == storedFontSize.GetOr(DefaultFontSize)
      ensures fontName == storedFontName.GetOr(DefaultFontName)
      ensures minFontSize == MinFontSize && maxFontSize == MaxFontSize
    {
      this.store := store;
      this.codec := codec;
      selectedTheme := storedTheme.GetOr(DefaultThemeName);
      hideLineNumbers := storedHideLineNumbers.GetOr(true);
      fontSize := storedFontSize.GetOr(DefaultFontSize);
      fontName := storedFontName.GetOr(DefaultFontName);
      minFontSize := MinFontSize;
      maxFontSize := MaxFontSize;
    }

    /** The colour shown for a role. */
    function Color(role: ColorRole): Themes.Color
      reads this
    {
      ColorOf(store, codec, role)
    }

    /** `apply(from:)`: the nine colour writes, then the name; `AppliedReadsBack` says what each role then shows. */
    method Apply(theme: Theme)
      modifies this
      ensures store == Applied(old(store), codec, theme)
      ensures selectedTheme == theme.name
      ensures hideLineNumbers == old(hideLineNumbers) && fontSize == old(fontSize) && fontName == old(fontName)
    {
      store := WriteColors(store, codec, theme);
      selectedTheme := theme.name;
    }

    /** `toggleThemeBasedOnColorScheme()`. */
    method ToggleThemeBasedOnColorScheme()
      modifies this
      ensures ToggleTarget(old(selectedTheme)).None? ==>
        store == old(store) && selectedTheme == old(selectedTheme)
      ensures ToggleTarget(old(selectedTheme)).Some? ==>
        var theme := ToggleTarget(old(selectedTheme)).value;
        store == Applied(old(store), codec, theme) && selectedTheme == theme.name
      ensures hideLineNumbers == old(hideLineNumbers) && fontSize == old(fontSize) && fontName == old(fontName)
    {
      var loweredTheme := Lower(selectedTheme);
      if loweredTheme == "system" { return; }

      if Contains(loweredTheme, "xcode") {
        if Contains(loweredTheme, "dark") {
          Apply(XcodeLight);
          return;
        }
        Apply(XcodeDark);
        return;
      }

      if Contains(loweredTheme, "github") {
        if Contains(loweredTheme, "dark") {
          Apply(GithubLight);
          return;
        }
        Apply(GithubDark);
        return;
      }

      if Contains(loweredTheme, "solarized") {
        if Contains(loweredTheme, "dark") {
          Apply(SolarizedLight);
          return;
        }
        Apply(SolarizedDark);
        return;
      }
    }
  }
}
