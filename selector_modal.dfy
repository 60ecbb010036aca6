/** The palette selector shown as a modal. Its state is the component's React state
    (`colorways`, `customColorways`, `currentColorway`, `visibility`) together with the
    key-value store and the live stylesheet it writes to. Unlike the settings-tab selector,
    it can generate a palette's stylesheet on demand from four role colours, and it records
    the palette's `colors` when one is activated. */
module ColorwaysSelectorModal {
  import opened Palettes
  import opened Text
  import opened Search
  import opened Sources

  /** `generateCss(primary, secondary, tertiary, accent, tintedText, discordSaturation)`:
      a deterministic function whose definition is not part of this model. */
  type CssGenerator = (Value, Value, Value, Value, Value, Value) -> string

  /** `getHex(colour).split("#")[1]`: the text after the first '#' up to the next one, or
      `undefined` when the hex form has no '#'. */
  function HexDigits(hex: string): (r: Value)
    ensures r.Str? <==> '#' in hex
    ensures r.Str? || r == Undefined
  {
    var parts := Split(hex, '#');
    if |parts| > 1 then Str(parts[1]) else Undefined
  }

  /** For a hex colour written as '#' followed by its digits, the digits are what is passed on. */
  lemma HexDigitsOfHashColour(digits: string)
    requires '#' !in digits
    ensures HexDigits("#" + digits) == Str(digits)
  {
    SplitWithoutSeparator(digits, '#');
    assert ("#" + digits)[1..] == digits;
  }

  /** The stylesheet generated on demand from the palette's role colours and the two flags
      held by the store. */
  function OnDemandCss(color: Colorway, store: Store, getHex: string -> string, generateCss: CssGenerator): string {
    generateCss(
      HexDigits(getHex(color.primary)),
      HexDigits(getHex(color.secondary)),
      HexDigits(getHex(color.tertiary)),
      HexDigits(getHex(color.accent)),
      Get(store, TintedTextKey),
      Get(store, SaturationKey))
  }

  /** The stylesheet that activating `color` stores and applies: generated when the store's
      `onDemandWays` flag is truthy, the palette's own `import` text otherwise. */
  function ActivationCss(color: Colorway, store: Store, getHex: string -> string, generateCss: CssGenerator): string {
    if Truthy(Get(store, OnDemandKey)) then OnDemandCss(color, store, getHex, generateCss) else color.importCss
  }

  class SelectorModal {
    var currentColorway: Value
    var colorways: seq<Colorway>
    var customColorways: seq<Colorway>
    var visibility: string
    var store: Store
    var stylesheet: Option<string>   // what the live stylesheet holds; None once removed
    const fallback: seq<Colorway>    // `fallbackColorways`, whose contents are not part of this model

    constructor (store0: Store, stylesheet0: Option<string>, fallbackColorways: seq<Colorway>)
      ensures currentColorway == Str("") && colorways == [] && customColorways == []
      ensures visibility == "all"
      ensures store == store0 && stylesheet == stylesheet0 && fallback == fallbackColorways
    {
      currentColorway := Str("");
      colorways := [];
      customColorways := [];
      visibility := "all";
      store := store0;
      stylesheet := stylesheet0;
      fallback := fallbackColorways;
    }

    /** `visibleColorwayArray` */
    function Visible(): seq<Colorway>
      reads this
    {
      View(visibility, colorways, customColorways)
    }

    /** Whether `color`'s tile carries the "active" class, and whether clicking it switches
      the palette off. */
    predicate IsCurrent(color: Colorway)
      reads this
    {
      currentColorway == Str(color.name)
    }

    /** "No colorways..." is shown exactly when the visible list is empty, that is when every
        list the filter shows is empty. */
    predicate ShowsEmptyNotice()
      reads this
      ensures ShowsEmptyNotice() <==>
                (ShowsOfficial(visibility) ==> colorways == []) && (ShowsCustom(visibility) ==> customColorways == [])
    {
      |Visible()| == 0
    }

    /** The tiles rendered: one per visible palette, in order, but only when the filter is one
        the menu offers; any other filter value renders no tile at all. */
    function Tiles(): (tiles: seq<Tile>)
      reads this
      ensures visibility in KnownFilters ==> |tiles| == |Visible()|
      ensures visibility !in KnownFilters ==> tiles == []
      ensures forall i :: 0 <= i < |tiles| ==> tiles[i].palette == Visible()[i]
      ensures forall t :: t in tiles ==> (t.active <==> IsCurrent(t.palette))
    {
      if visibility in KnownFilters then TilesOf(Visible(), currentColorway, |colorways|) else []
    }

    /** The stored `actveColorway` and the live stylesheet agree: the same text, or null and
        no stylesheet. Every click establishes it and every other operation keeps it; the store
        and stylesheet given at mount may not. */
    predicate CssInSync()
      reads this
    {
      match stylesheet
      case Some(css) => Get(store, ActiveCssKey) == Str(css)
      case None => Get(store, ActiveCssKey) == Null
    }

    /** `loadUI`: reload the official palettes from the sources, the custom palettes and the
        current id from the store. When the load rejects, no state changes. */
    method LoadUI(net: string -> FetchResult) returns (ok: bool)
      modifies this`colorways, this`customColorways, this`currentColorway
      ensures ok <==> LoadedOfficial(store, net).Some? && StoredCustom(store).Some?
      ensures ok ==> colorways == LoadedOfficial(store, net).value
      ensures ok ==> customColorways == StoredCustom(store).value
      ensures ok ==> currentColorway == Get(store, ActiveIdKey)
      ensures !ok ==> colorways == old(colorways) && customColorways == old(customColorways)
      ensures !ok ==> currentColorway == old(currentColorway)
      ensures CssInSync() == old(CssInSync())
    {
      var sources := Get(store, SourceFilesKey);
      if !sources.Arr? || Texts(sources.items).None? {
        return false;
      }
      var responses := FetchAll(Texts(sources.items).value, net);
      var official := Gather(responses);
      if official.None? {
        return false;
      }
      var custom := StoredCustom(store);
      if custom.None? {
        return false;
      }
      colorways := ArrayOr(official.value, fallback);
      customColorways := custom.value;
      currentColorway := Get(store, ActiveIdKey);
      ok := true;
    }

    /** `searchColorways`: an empty query reloads everything; any other query refetches both
        lists and replaces them with the palettes whose names contain the query, ignoring
        case. A search never changes the current id. */
    method SearchColorways(e: string, net: string -> FetchResult) returns (ok: bool)
      modifies this`colorways, this`customColorways, this`currentColorway
      ensures ok <==> LoadedOfficial(store, net).Some? && StoredCustom(store).Some?
      ensures ok && e == "" ==> colorways == LoadedOfficial(store, net).value
      ensures ok && e == "" ==> customColorways == StoredCustom(store).value
      ensures ok && e == "" ==> currentColorway == Get(store, ActiveIdKey)
      ensures ok && e != "" ==> colorways == Matching(LoadedOfficial(store, net).value, e)
      ensures ok && e != "" ==> customColorways == Matching(StoredCustom(store).value, e)
      ensures ok && e != "" ==>
                Visible() == Matching(View(visibility, LoadedOfficial(store, net).value, StoredCustom(store).value), e)
      ensures ok && e != "" ==> forall c :: c in Visible() ==> NameMatches(c, e)
      ensures e != "" ==> currentColorway == old(currentColorway)
      ensures !ok ==> colorways == old(colorways) && customColorways == old(customColorways)
      ensures !ok ==> currentColorway == old(currentColorway)
      ensures CssInSync() == old(CssInSync())
    {
      if e == "" {
        ok := LoadUI(net);
        return;
      }
      var sources := Get(store, SourceFilesKey);
      if !sources.Arr? || Texts(sources.items).None? {
        return false;
      }
      var data := Gather(FetchAll(Texts(sources.items).value, net));
      if data.None? {
        return false;
      }
      var baseData := StoredCustom(store);
      if baseData.None? {
        return false;
      }
      var results := FilterByName(ArrayOr(data.value, fallback), e);
      var customResults := FilterByName(baseData.value, e);
      colorways := results;
      customColorways := customResults;
      ok := true;
      SearchCommutesWithView(visibility, data.value, baseData.value, e);
      MatchingMembers(View(visibility, data.value, baseData.value), e);
    }

    /** Clicking a palette's preview toggles it: the current palette is switched off (id and
        stylesheet nulled, stylesheet removed); any other palette is switched on (its colours,
        name and stylesheet stored, the stylesheet applied). The current id is then read back
        from the store. */
    method ClickPreview(color: Colorway, getHex: string -> string, generateCss: CssGenerator)
      modifies this`store, this`stylesheet, this`currentColorway
      ensures old(IsCurrent(color)) ==>
                store == old(store)[ActiveIdKey := Null][ActiveCssKey := Null] && stylesheet == None
      ensures !old(IsCurrent(color)) ==>
                var css := ActivationCss(color, old(store), getHex, generateCss);
                store == old(store)[ActiveColorsKey := ColorsValue(color.colors)]
                                   [ActiveIdKey := Str(color.name)]
                                   [ActiveCssKey := Str(css)]
                && stylesheet == Some(css)
      ensures !old(IsCurrent(color)) && Truthy(Get(old(store), OnDemandKey)) ==>
                stylesheet == Some(OnDemandCss(color, old(store), getHex, generateCss))
      ensures !old(IsCurrent(color)) && !Truthy(Get(old(store), OnDemandKey)) ==>
                stylesheet == Some(color.importCss)
      ensures currentColorway == Get(store, ActiveIdKey)
      ensures IsCurrent(color) <==> !old(IsCurrent(color))
      ensures CssInSync()
      ensures forall k :: k != ActiveIdKey && k != ActiveCssKey && k != ActiveColorsKey ==>
                Get(store, k) == Get(old(store), k)
    {
      var onDemandWays, tintedText, discordSaturation :=
        Get(store, OnDemandKey), Get(store, TintedTextKey), Get(store, SaturationKey);
      if currentColorway == Str(color.name) {
        store := store[ActiveIdKey := Null];
        store := store[ActiveCssKey := Null];
        stylesheet := None;
      } else {
        store := store[ActiveColorsKey := ColorsValue(color.colors)];
        store := store[ActiveIdKey := Str(color.name)];
        if Truthy(onDemandWays) {
          var demandedColorway := generateCss(
            HexDigits(getHex(color.primary)),
            HexDigits(getHex(color.secondary)),
            HexDigits(getHex(color.tertiary)),
            HexDigits(getHex(color.accent)),
            tintedText,
            discordSaturation);
          store := store[ActiveCssKey := Str(demandedColorway)];
          stylesheet := Some(demandedColorway);
        } else {
          store := store[ActiveCssKey := Str(color.importCss)];
          stylesheet := Some(color.importCss);
        }
      }
      currentColorway := Get(store, ActiveIdKey);
    }

    /** Choosing a filter from the menu shows it and persists it under `colorwaysBtnPos`;
        the menu offers only "all", "official" and "custom". */
    method SelectFilter(value: string)
      requires value in KnownFilters
      modifies this`visibility, this`store
      ensures visibility == value
      ensures store == old(store)[FilterKey := Str(value)]
      ensures CssInSync() == old(CssInSync())
    {
      visibility := value;
      store := store[FilterKey := Str(value)];
    }
  }

  /** Mounting the modal: the state starts as the component declares it, and the first run of
      the effect, with the search text still empty, loads the lists. */
  method Open(store0: Store, stylesheet0: Option<string>, fallbackColorways: seq<Colorway>,
              net: string -> FetchResult)
    returns (m: SelectorModal, ok: bool)
    ensures fresh(m)
    ensures m.visibility == "all" && m.store == store0 && m.stylesheet == stylesheet0
    ensures ok <==> LoadedOfficial(store0, net).Some? && StoredCustom(store0).Some?
    ensures ok ==> m.colorways == LoadedOfficial(store0, net).value
                   && m.customColorways == StoredCustom(store0).value
                   && m.currentColorway == Get(store0, ActiveIdKey)
    ensures !ok ==> m.colorways == [] && m.customColorways == [] && m.currentColorway == Str("")
  {
    m := new SelectorModal(store0, stylesheet0, fallbackColorways);
    ok := m.LoadUI(net);
  }

  /** The guard in front of the tiles: with a filter value outside the menu the modal would
      render no tile even though its visible list holds both lists, and "No colorways..." would
      show only when both lists are empty. The modal's own filter never leaves the menu (it
      starts as "all" and only the menu sets it), so this branch is never taken. */
  lemma UnknownFilterRendersNoTiles(m: SelectorModal)
    requires m.visibility !in KnownFilters
    ensures m.Tiles() == []
    ensures m.Visible() == m.colorways + m.customColorways
    ensures m.ShowsEmptyNotice() <==> m.colorways == [] && m.customColorways == []
  {
  }
}
