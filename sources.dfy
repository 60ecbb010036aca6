/** Loading the official palettes: every configured source URL is fetched, all at once, and
    the `colorways` arrays of the answers are flattened in URL order. An answer whose body is
    not JSON contributes an empty list; a fetch that rejects makes the whole load reject. */
module Sources {
  import opened Palettes

  /** What fetching one source URL and parsing its body produces. */
  datatype FetchResult =
    | Rejected                               // `fetch` itself rejects
    | Unparsable                             // `res.json()` rejects; the catch gives `{ colorways: [] }`
    | Document(colorways: seq<Colorway>)     // `{ colorways: [...] }`

  /** The palettes one answer adds to the flattened list. */
  function Contribution(r: FetchResult): seq<Colorway> {
    match r
    case Document(cs) => cs
    case _ => []
  }

  /** `data.flatMap((json) => json.colorways)` */
  function Flatten(rs: seq<FetchResult>): seq<Colorway> {
    if rs == [] then [] else Contribution(rs[0]) + Flatten(rs[1..])
  }

  predicate AllFetched(rs: seq<FetchResult>) {
    forall i :: 0 <= i < |rs| ==> !rs[i].Rejected?
  }

  /** `Promise.all` over the fetches, then the flattening: None when some fetch rejected. */
  function Gather(rs: seq<FetchResult>): Option<seq<Colorway>> {
    if AllFetched(rs) then Some(Flatten(rs)) else None
  }

  /** The answers of the network, in URL order. */
  function FetchAll(urls: seq<string>, net: string -> FetchResult): seq<FetchResult> {
    seq(|urls|, i requires 0 <= i < |urls| => net(urls[i]))
  }

  /** `Promise.all` over the fetches of a URL list resolves exactly when no URL's fetch
      rejects. */
  lemma FetchAllResolves(urls: seq<string>, net: string -> FetchResult)
    ensures Gather(FetchAll(urls, net)).Some? <==> forall u :: u in urls ==> !net(u).Rejected?
  {
    var rs := FetchAll(urls, net);
    if AllFetched(rs) {
      forall u | u in urls ensures !net(u).Rejected? {
        var i :| 0 <= i < |urls| && urls[i] == u;
        assert rs[i] == net(u);
      }
    }
  }

  /** The flattened list of a run of answers is the flattened list of its first part followed
      by that of the rest: sources contribute in URL order. */
  lemma {:induction false} FlattenAppend(rs: seq<FetchResult>, ts: seq<FetchResult>)
    ensures Flatten(rs + ts) == Flatten(rs) + Flatten(ts)
  {
    if rs == [] {
      assert rs + ts == ts;
    } else {
      assert (rs + ts)[1..] == rs[1..] + ts;
      FlattenAppend(rs[1..], ts);
    }
  }

  /** A palette is loaded exactly when some source's document lists it. */
  lemma {:induction false} FlattenMembers(rs: seq<FetchResult>)
    ensures forall c :: c in Flatten(rs) <==> exists i :: 0 <= i < |rs| && c in Contribution(rs[i])
  {
    if rs != [] {
      FlattenMembers(rs[1..]);
      forall c | c in Flatten(rs) ensures exists i :: 0 <= i < |rs| && c in Contribution(rs[i]) {
        if c !in Contribution(rs[0]) {
          assert c in Flatten(rs[1..]);
          var j :| 0 <= j < |rs[1..]| && c in Contribution(rs[1..][j]);
          assert c in Contribution(rs[j + 1]);
        }
      }
      forall c | exists i :: 0 <= i < |rs| && c in Contribution(rs[i]) ensures c in Flatten(rs) {
        var i :| 0 <= i < |rs| && c in Contribution(rs[i]);
        if i > 0 {
          assert c in Contribution(rs[1..][i - 1]);
        }
      }
    }
  }

  /** When no source gives a usable document, the loaded list is empty. */
  lemma {:induction false} FlattenOfUnparsable(rs: seq<FetchResult>)
    requires forall i :: 0 <= i < |rs| ==> rs[i] == Unparsable
    ensures Flatten(rs) == []
  {
    if rs != [] {
      FlattenOfUnparsable(rs[1..]);
    }
  }

  /** The official list read from the store's source URLs, or None when the load rejects:
      the URL key does not hold an array of strings, or a fetch rejects. */
  function LoadedOfficial(store: Store, net: string -> FetchResult): (r: Option<seq<Colorway>>)
    ensures r.Some? <==>
              Get(store, SourceFilesKey).Arr? && Texts(Get(store, SourceFilesKey).items).Some?
              && forall u :: u in Texts(Get(store, SourceFilesKey).items).value ==> !net(u).Rejected?
  {
    match Get(store, SourceFilesKey)
    case Arr(items) =>
      (match Texts(items)
       case Some(urls) => FetchAllResolves(urls, net); Gather(FetchAll(urls, net))
       case None => None)
    case _ => None
  }

  /** The custom palettes held by the store, or None when the key holds no palette array. */
  function StoredCustom(store: Store): (r: Option<seq<Colorway>>)
    ensures r.Some? ==> Get(store, CustomKey) == PaletteArray(r.value)
  {
    match Get(store, CustomKey)
    case Arr(items) => PalettesInWritten(items); PalettesIn(items)
    case _ => None
  }

  /** If every source answers with something that is not JSON, the official list is empty:
      the hard-coded fallback list never replaces it. */
  lemma AllUnparsableLoadsNothing(store: Store, net: string -> FetchResult, urls: seq<string>)
    requires Get(store, SourceFilesKey) == StringArray(urls)
    requires forall i :: 0 <= i < |urls| ==> net(urls[i]) == Unparsable
    ensures LoadedOfficial(store, net) == Some([])
  {
    TextsOfStrings(urls);
    FlattenOfUnparsable(FetchAll(urls, net));
  }

  /** Reading back a list of strings that was written as an array gives the same list. */
  lemma {:induction false} TextsOfStrings(urls: seq<string>)
    ensures Texts(StringArray(urls).items) == Some(urls)
  {
    if urls != [] {
      TextsOfStrings(urls[1..]);
      var items := StringArray(urls).items;
      assert items[1..] == StringArray(urls[1..]).items;
      assert items[0] == Str(urls[0]);
      assert urls == [urls[0]] + urls[1..];
    }
  }
}
