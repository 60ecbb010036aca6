/** The data shared by the two Colorways selectors: palettes, the JavaScript values kept in
    the key-value store, the store itself, the visibility filter and the rendered tiles. */
module Palettes {

  datatype Option<+T> = None | Some(value: T)

  /** A palette (a "colorway"). `colors` is the optional list of role names that the preview
      shows; `importCss` is the palette's precomputed stylesheet text, the field a source
      document calls `import` (a reserved word in Dafny). */
  datatype Colorway = Colorway(
    name: string,
    colors: Option<seq<string>>,
    accent: string,
    primary: string,
    secondary: string,
    tertiary: string,
    importCss: string)

  /** The JavaScript values that go into and come out of the key-value store. */
  datatype Value =
    | Undefined
    | Null
    | Bool(b: bool)
    | Str(s: string)
    | Palette(palette: Colorway)
    | Arr(items: seq<Value>)

  /** JavaScript truthiness: `undefined`, `null`, `false` and `""` are falsy, and every
      object, an empty array included, is truthy. */
  predicate Truthy(v: Value)
    ensures Truthy(v) <==> v !in {Undefined, Null, Bool(false), Str("")}
  {
    match v
    case Undefined => false
    case Null => false
    case Bool(b) => b
    case Str(s) => s != ""
    case Palette(_) => true
    case Arr(_) => true
  }

  /** A list of palettes as the array value that holds them. */
  function PaletteArray(list: seq<Colorway>): Value {
    Arr(seq(|list|, i requires 0 <= i < |list| => Palette(list[i])))
  }

  /** A list of strings as the array value that holds them. */
  function StringArray(list: seq<string>): Value {
    Arr(seq(|list|, i requires 0 <= i < |list| => Str(list[i])))
  }

  /** The palettes held by an array value, or None when some element is not a palette. */
  function PalettesIn(items: seq<Value>): Option<seq<Colorway>> {
    if items == [] then Some([])
    else match (items[0], PalettesIn(items[1..]))
      case (Palette(c), Some(rest)) => Some([c] + rest)
      case _ => None
  }

  /** An array value that holds only palettes is exactly the array written for the list it
      holds: reading and writing a palette list are inverse both ways. */
  lemma {:induction false} PalettesInWritten(items: seq<Value>)
    ensures PalettesIn(items).Some? ==> items == PaletteArray(PalettesIn(items).value).items
  {
    if items != [] && PalettesIn(items).Some? {
      PalettesInWritten(items[1..]);
      var list := PalettesIn(items).value;
      assert list == [items[0].palette] + PalettesIn(items[1..]).value;
      assert PaletteArray(list).items[1..] == PaletteArray(list[1..]).items;
      assert items == [items[0]] + items[1..];
    }
  }

  /** The strings held by an array value, or None when some element is not a string. */
  function Texts(items: seq<Value>): Option<seq<string>> {
    if items == [] then Some([])
    else match (items[0], Texts(items[1..]))
      case (Str(s), Some(rest)) => Some([s] + rest)
      case _ => None
  }

  /** Reading back a palette list that was written as an array gives the same list. */
  lemma {:induction false} PaletteArrayRoundTrip(list: seq<Colorway>)
    ensures PalettesIn(PaletteArray(list).items) == Some(list)
  {
    if list != [] {
      var items := PaletteArray(list).items;
      PaletteArrayRoundTrip(list[1..]);
      assert items[1..] == PaletteArray(list[1..]).items;
      assert items[0] == Palette(list[0]);
      assert list == [list[0]] + list[1..];
    }
  }

  /** `xs || fallback` where `xs` is an array: the fallback is never taken, not even when
      `xs` is empty, because an array is always truthy. */
  function ArrayOr(xs: seq<Colorway>, fallback: seq<Colorway>): (r: seq<Colorway>)
    ensures r == xs
  {
    if Truthy(PaletteArray(xs)) then xs else fallback
  }

  /** The key-value store: a missing key reads as `undefined`. */
  type Store = map<string, Value>

  function Get(store: Store, key: string): Value {
    if key in store then store[key] else Undefined
  }

  const SourceFilesKey: string := "colorwaySourceFiles"
  const CustomKey: string := "customColorways"
  // The persisted key names below are misspelled in the program and kept as they are.
  const ActiveIdKey: string := "actveColorwayID"
  const ActiveCssKey: string := "actveColorway"
  const ActiveColorsKey: string := "activeColorwayColors"
  const OnDemandKey: string := "onDemandWays"
  const TintedTextKey: string := "onDemandWaysTintedText"
  const SaturationKey: string := "onDemandWaysDiscordSaturation"
  const FilterKey: string := "colorwaysBtnPos"

  /** The value written for a palette's `colors` field (`undefined` when it has none). */
  function ColorsValue(colors: Option<seq<string>>): Value {
    match colors
    case Some(roles) => StringArray(roles)
    case None => Undefined
  }

  /** The visibility filter values that the filter menu offers. */
  const KnownFilters: set<string> := {"all", "official", "custom"}

  predicate ShowsOfficial(visibility: string) { visibility != "custom" }

  predicate ShowsCustom(visibility: string) { visibility != "official" }

  /** The list the selector shows for a visibility filter: the official part (when shown)
      followed by the custom part (when shown), each in its own order. A value the switch does
      not recognise falls into its default case, which is the same as "all". */
  function View(visibility: string, official: seq<Colorway>, custom: seq<Colorway>): (r: seq<Colorway>)
    ensures r == (if ShowsOfficial(visibility) then official else [])
               + (if ShowsCustom(visibility) then custom else [])
  {
    if visibility == "all" then official + custom
    else if visibility == "official" then official
    else if visibility == "custom" then custom
    else official + custom
  }

  /** A filter value outside the menu behaves like "all". */
  lemma UnknownFilterIsAll(visibility: string, official: seq<Colorway>, custom: seq<Colorway>)
    requires visibility !in KnownFilters
    ensures View(visibility, official, custom) == View("all", official, custom)
  {
  }

  /** A palette is visible exactly when it is in a list that the filter shows. */
  lemma ViewMembers(visibility: string, official: seq<Colorway>, custom: seq<Colorway>)
    ensures forall c :: c in View(visibility, official, custom)
              <==> (ShowsOfficial(visibility) && c in official) || (ShowsCustom(visibility) && c in custom)
  {
  }

  /** One rendered palette tile: the palette, whether it carries the "active" class, and its
      `data-last-official` flag. */
  datatype Tile = Tile(palette: Colorway, active: bool, lastOfficial: bool)

  function TilesOf(list: seq<Colorway>, current: Value, officialCount: nat): seq<Tile> {
    seq(|list|, i requires 0 <= i < |list| =>
      Tile(list[i], current == Str(list[i].name), i + 1 == officialCount))
  }

  /** A tile is marked active exactly when its palette's name is the current id, so every
      active tile bears the same name: at most one palette is active at a time. */
  lemma ActiveTilesShareName(list: seq<Colorway>, current: Value, officialCount: nat)
    ensures forall t :: t in TilesOf(list, current, officialCount) ==> (t.active <==> current == Str(t.palette.name))
    ensures forall i, j :: 0 <= i < |list| && 0 <= j < |list|
              && TilesOf(list, current, officialCount)[i].active && TilesOf(list, current, officialCount)[j].active
              ==> list[i].name == list[j].name
  {
  }
}
