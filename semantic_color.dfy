/**
 * SemanticColor.swift: the colour of each syntax role lives in the
 * preferences store under its own key, as a hex string, and falls back to
 * the System theme's colour while nothing is stored. The `ThemedColor`
 * property wrapper is modelled as a getter and a setter over the store's
 * string entries.
 */
module SemanticColors {
  import opened SemanticTypes
  import opened Themes

  /** The string entries of the preferences store (`UserDefaults.string(forKey:)`). */
  type Store = map<string, string>

  /**
   * `toHex()` and `Color(hex:)`, whose code is not part of this model. No
   * round trip between them is assumed.
   */
  datatype HexCodec = HexCodec(toHex: Color -> string, fromHex: string -> Color)

  /** The key of the fallback colour, which no semantic type names. */
  const DefaultColorKey := "default_color"

  /** `CDSemanticType.key`: where each semantic type keeps its colour. */
  function Key(t: SemanticType): (r: string)
    ensures r == "" <==> t.Other?
  {
    match t
    case Standard => "standard_color"
    case Comment => "comment_color"
    case Keyword => "keyword_color"
    case Variable => "variable_color"
    case Numeric => "numeric_color"
    case RecordName => "record_name_color"
    case Class => "class_color"
    case Protocol => "protocol_color"
    case Other(_) => ""
  }

  /** The eight named semantic types have eight different keys, none of them the fallback key. */
  lemma KeysDistinct(s: SemanticType, t: SemanticType)
    requires !s.Other? && !t.Other?
    ensures Key(s) == Key(t) <==> s == t
    ensures Key(s) != DefaultColorKey
  {
  }

  /** `ThemedColor`: a colour stored under `key`, `defaultValue` while nothing is stored. */
  datatype ThemedColor = ThemedColor(defaultValue: Color, key: string) {

    /** The getter: the stored hex string decoded, or the default when the key holds no string. */
    function Get(store: Store, codec: HexCodec): (r: Color)
      ensures key !in store ==> r == defaultValue
      ensures key in store ==> r == codec.fromHex(store[key])
    {
      if key in store then codec.fromHex(store[key]) else defaultValue
    }

    /** The setter: stores the colour's hex string under the key. */
    function Set(store: Store, codec: HexCodec, v: Color): (r: Store)
      ensures key in r && r[key] == codec.toHex(v)
    {
      store[key := codec.toHex(v)]
    }
  }

  /** Reading after a write gives the colour decoded from the hex string written. */
  lemma GetAfterSet(c: ThemedColor, store: Store, codec: HexCodec, v: Color)
    ensures c.Get(c.Set(store, codec, v), codec) == codec.fromHex(codec.toHex(v))
  {
  }

  /** A write under one key leaves a colour under any other key as it was. */
  lemma SetLeavesOtherKeys(c: ThemedColor, d: ThemedColor, store: Store, codec: HexCodec, v: Color)
    requires c.key != d.key
    ensures d.Get(c.Set(store, codec, v), codec) == d.Get(store, codec)
  {
  }

  /** The key `SemanticColor` uses for each colour role. */
  function RoleKey(role: ColorRole): (r: string)
    ensures role == DefaultRole <==> r == DefaultColorKey
  {
    match role
    case StandardRole => Key(Standard)
    case CommentRole => Key(Comment)
    case KeywordRole => Key(Keyword)
    case VariableRole => Key(Variable)
    case NumberRole => Key(Numeric)
    case RecordNameRole => Key(RecordName)
    case ClassRole => Key(Class)
    case ProtocolRole => Key(Protocol)
    case DefaultRole => DefaultColorKey
  }

  /** The nine roles are stored under nine different keys. */
  lemma RoleKeysDistinct(a: ColorRole, b: ColorRole)
    ensures RoleKey(a) == RoleKey(b) <==> a == b
  {
  }

  /** `SemanticColor`'s property for a role: its key, with the System theme's colour as default. */
  function Wrapper(role: ColorRole): (r: ThemedColor)
    ensures r.key == RoleKey(role)
  {
    ThemedColor(System.Get(role), RoleKey(role))
  }

  /** The colour `SemanticColor` shows for a role, given the store. */
  function ColorOf(store: Store, codec: HexCodec, role: ColorRole): Color {
    Wrapper(role).Get(store, codec)
  }

  /** With nothing stored, every role shows the System theme's colour. */
  lemma DefaultsAreSystemTheme(codec: HexCodec, role: ColorRole)
    ensures ColorOf(map[], codec, role) == System.Get(role)
  {
  }
}
