/** The palette selector shown as a settings tab. It keeps the same state as the modal and
    loads and searches the same way, but it always activates a palette with the palette's
    precomputed `import` stylesheet, never records the palette's colours, and renders a tile
    for every visible palette whatever the filter value. */
module ColorwaysSelector {
  import opened Palettes
  import opened Search
  import opened Sources

  class Selector {
    var currentColorway: Value
    var colorways: seq<Colorway>
    var customColorways: seq<Colorway>
    var visibility: string
    var store: Store
    var stylesheet: Option<string>   // what the live stylesheet holds; None once removed
    const fallback: seq<Colorway>    // `fallbackColorways`, whose contents are not part of this model

    /** `visibleTabProps` is None when the prop is not given; the filter then starts as "all". */
    constructor (visibleTabProps: Option<string>, store0: Store, stylesheet0: Option<string>, fallbackColorways: seq<Colorway>)
      ensures currentColorway == Str("") && colorways == [] && customColorways == []
      ensures visibleTabProps.Some? ==> visibility == visibleTabProps.value
      ensures visibleTabProps.None? ==> visibility == "all"
      ensures store == store0 && stylesheet == stylesheet0 && fallback == fallbackColorways
    {
      currentColorway := Str("");
      colorways := [];
      customColorways := [];
      visibility := match visibleTabProps case Some(v) => v case None => "all";
      store := store0;
      stylesheet := stylesheet0;
      fallback := fallbackColorways;
    }

    /** `visibleColorwayArray` */
    function Visible(): seq<Colorway>
      reads this
    {
      View(visibility, colorways, customColorways)
    }

    predicate IsCurrent(color: Colorway)
      reads this
    {
      currentColorway == Str(color.name)
    }

    /** "No colorways..." is shown exactly when the visible list is empty, that is when every
        list the filter shows is empty. */
    predicate ShowsEmptyNotice()
      reads this
      ensures ShowsEmptyNotice() <==>
                (ShowsOfficial(visibility) ==> colorways == []) && (ShowsCustom(visibility) ==> customColorways == [])
    {
      |Visible()| == 0
    }

    /** The tiles rendered: one per visible palette, in order, for every filter value. */
    function Tiles(): (tiles: seq<Tile>)
      reads this
      ensures |tiles| == |Visible()|
      ensures forall i :: 0 <= i < |tiles| ==> tiles[i].palette == Visible()[i]
      ensures forall t :: t in tiles ==> (t.active <==> IsCurrent(t.palette))
    {
      TilesOf(Visible(), currentColorway, |colorways|)
    }

    /** The stored `actveColorway` and the live stylesheet agree. Every click establishes it and
        every other operation keeps it; the store and stylesheet given at mount may not. */
    predicate CssInSync()
      reads this
    {
      match stylesheet
      case Some(css) => Get(store, ActiveCssKey) == Str(css)
      case None => Get(store, ActiveCssKey) == Null
    }

    /** `loadUI`: reload the official palettes from the sources, the custom palettes and the
        current id from the store. When the load rejects, no state changes. */
    method LoadUI(net: string -> FetchResult) returns (ok: bool)
      modifies this`colorways, this`customColorways, this`currentColorway
      ensures ok <==> LoadedOfficial(store, net).Some? && StoredCustom(store).Some?
      ensures ok ==> colorways == LoadedOfficial(store, net).value
      ensures ok ==> customColorways == StoredCustom(store).value
      ensures ok ==> currentColorway == Get(store, ActiveIdKey)
      ensures !ok ==> colorways == old(colorways) && customColorways == old(customColorways)
      ensures !ok ==> currentColorway == old(currentColorway)
      ensures CssInSync() == old(CssInSync())
    {
      var sources := Get(store, SourceFilesKey);
      if !sources.Arr? || Texts(sources.items).None? {
        return false;
      }
      var responses := FetchAll(Texts(sources.items).value, net);
      var official := Gather(responses);
      if official.None? {
        return false;
      }
      var custom := StoredCustom(store);
      if custom.None? {
        return false;
      }
      colorways := ArrayOr(official.value, fallback);
      customColorways := custom.value;
      currentColorway := Get(store, ActiveIdKey);
      ok := true;
    }

    /** `searchColorways`: an empty query reloads everything; any other query refetches both
        lists and replaces them with the palettes whose names contain the query, ignoring
        case. A search never changes the current id. */
    method SearchColorways(e: string, net: string -> FetchResult) returns (ok: bool)
      modifies this`colorways, this`customColorways, this`currentColorway
      ensures ok <==> LoadedOfficial(store, net).Some? && StoredCustom(store).Some?
      ensures ok && e == "" ==> colorways == LoadedOfficial(store, net).value
      ensures ok && e == "" ==> customColorways == StoredCustom(store).value
      ensures ok && e == "" ==> currentColorway == Get(store, ActiveIdKey)
      ensures ok && e != "" ==> colorways == Matching(LoadedOfficial(store, net).value, e)
      ensures ok && e != "" ==> customColorways == Matching(StoredCustom(store).value, e)
      ensures ok && e != "" ==>
                Visible() == Matching(View(visibility, LoadedOfficial(store, net).value, StoredCustom(store).value), e)
      ensures ok && e != "" ==> forall c :: c in Visible() ==> NameMatches(c, e)
      ensures e != "" ==> currentColorway == old(currentColorway)
      ensures !ok ==> colorways == old(colorways) && customColorways == old(customColorways)
      ensures !ok ==> currentColorway == old(currentColorway)
      ensures CssInSync() == old(CssInSync())
    {
      if e == "" {
        ok := LoadUI(net);
        return;
      }
      var sources := Get(store, SourceFilesKey);
      if !sources.Arr? || Texts(sources.items).None? {
        return false;
      }
      var data := Gather(FetchAll(Texts(sources.items).value, net));
      if data.None? {
        return false;
      }
      var baseData := StoredCustom(store);
      if baseData.None? {
        return false;
      }
      var results := FilterByName(ArrayOr(data.value, fallback), e);
      var customResults := FilterByName(baseData.value, e);
      colorways := results;
      customColorways := customResults;
      ok := true;
      SearchCommutesWithView(visibility, data.value, baseData.value, e);
      MatchingMembers(View(visibility, data.value, baseData.value), e);
    }

    /** Clicking a palette's preview toggles it: the current palette is switched off (id and
        stylesheet nulled, stylesheet removed); any other palette is switched on with its
        `import` text, stored and applied verbatim. The current id is then read back from the
        store; `activeColorwayColors` is never written. */
    method ClickPreview(color: Colorway)
      modifies this`store, this`stylesheet, this`currentColorway
      ensures old(IsCurrent(color)) ==>
                store == old(store)[ActiveIdKey := Null][ActiveCssKey := Null] && stylesheet == None
      ensures !old(IsCurrent(color)) ==>
                store == old(store)[ActiveIdKey := Str(color.name)][ActiveCssKey := Str(color.importCss)]
                && stylesheet == Some(color.importCss)
      ensures currentColorway == Get(store, ActiveIdKey)
      ensures IsCurrent(color) <==> !old(IsCurrent(color))
      ensures CssInSync()
      ensures forall k :: k != ActiveIdKey && k != ActiveCssKey ==> Get(store, k) == Get(old(store), k)
    {
      if currentColorway == Str(color.name) {
        store := store[ActiveIdKey := Null];
        store := store[ActiveCssKey := Null];
        stylesheet := None;
      } else {
        store := store[ActiveIdKey := Str(color.name)];
        store := store[ActiveCssKey := Str(color.importCss)];
        stylesheet := Some(color.importCss);
      }
      currentColorway := Get(store, ActiveIdKey);
    }

    /** Choosing a filter from the menu shows it and persists it under `colorwaysBtnPos`;
        the menu offers only "all", "official" and "custom". */
    method SelectFilter(value: string)
      requires value in KnownFilters
      modifies this`visibility, this`store
      ensures visibility == value
      ensures store == old(store)[FilterKey := Str(value)]
      ensures CssInSync() == old(CssInSync())
    {
      visibility := value;
      store := store[FilterKey := Str(value)];
    }
  }

  /** Mounting the settings tab: the state starts as the component declares it, and the first
      run of the effect, with the search text still empty, loads the lists. */
  method Open(visibleTabProps: Option<string>, store0: Store, stylesheet0: Option<string>,
              fallbackColorways: seq<Colorway>, net: string -> FetchResult)
    returns (s: Selector, ok: bool)
    ensures fresh(s)
    ensures visibleTabProps.Some? ==> s.visibility == visibleTabProps.value
    ensures visibleTabProps.None? ==> s.visibility == "all"
    ensures s.store == store0 && s.stylesheet == stylesheet0
    ensures ok <==> LoadedOfficial(store0, net).Some? && StoredCustom(store0).Some?
    ensures ok ==> s.colorways == LoadedOfficial(store0, net).value
                   && s.customColorways == StoredCustom(store0).value
                   && s.currentColorway == Get(store0, ActiveIdKey)
    ensures !ok ==> s.colorways == [] && s.customColorways == [] && s.currentColorway == Str("")
  {
    s := new Selector(visibleTabProps, store0, stylesheet0, fallbackColorways);
    ok := s.LoadUI(net);
  }

  /** Clicking a palette that is not the current one twice switches it on and then off
      again: the id and the stylesheet text end up null and no stylesheet is applied. */
  method ClickTwice(s: Selector, color: Colorway)
    requires !s.IsCurrent(color)
    modifies s`store, s`stylesheet, s`currentColorway
    ensures !s.IsCurrent(color) && s.stylesheet == None
    ensures s.currentColorway == Null
    ensures s.store == old(s.store)[ActiveIdKey := Null][ActiveCssKey := Null]
  {
    s.ClickPreview(color);
    s.ClickPreview(color);
  }

  /** One source listing a single palette, no custom palettes, filter "all", empty search:
      that palette is shown alone, and clicking it makes it current and applies its `import`
      text. */
  method MidnightScenario()
  {
    var midnight := Colorway("Midnight", None, "#111", "#222", "#333", "#444", "...css...");
    var url := "https://x/a.json";
    var net := (u: string) => if u == url then Document([midnight]) else Rejected;
    var store := map[SourceFilesKey := StringArray([url]), CustomKey := PaletteArray([])];
    TextsOfStrings([url]);
    PaletteArrayRoundTrip([]);
    assert Get(store, SourceFilesKey) == StringArray([url]);
    assert FetchAll([url], net) == [Document([midnight])];
    assert Flatten([Document([midnight])]) == [midnight] + Flatten([]);
    assert Flatten([]) == [];
    assert [midnight] + [] == [midnight];
    assert AllFetched([Document([midnight])]);
    assert Gather(FetchAll([url], net)) == Some([midnight]);
    assert Texts(Get(store, SourceFilesKey).items) == Some([url]);
    assert LoadedOfficial(store, net) == Some([midnight]);
    var s, ok := Open(None, store, None, [], net);
    assert ok && s.colorways == [midnight] && s.customColorways == [];
    assert s.Visible() == [midnight];
    s.ClickPreview(midnight);
    assert s.IsCurrent(midnight);
    assert s.currentColorway == Str("Midnight");
    assert s.stylesheet == Some("...css...");
  }

  /** A settings tab opened with a filter value outside the menu still shows every palette,
      where the modal would show none. */
  lemma UnknownFilterRendersAll(s: Selector)
    requires s.visibility !in KnownFilters
    ensures |s.Tiles()| == |s.colorways| + |s.customColorways|
    ensures forall i :: 0 <= i < |s.Tiles()| ==> s.Tiles()[i].palette == (s.colorways + s.customColorways)[i]
  {
  }
}
