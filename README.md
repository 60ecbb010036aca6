# Colorways palette selectors, modelled in Dafny

The Colorways plugin lets the user pick a colour palette ("colorway") for the chat client.
Two near-identical components list the palettes: the selector modal (`SelectorModal`) and
the settings-tab selector (`Selector`). Each one

- **loads** the official palettes by fetching every source URL held in the key-value store
  under `colorwaySourceFiles` and flattening the `colorways` arrays of the answers in URL
  order (a body that is not JSON contributes an empty list), and reads the custom palettes
  and the active palette id from the store;
- **shows** the official list followed by the custom one, only the official list or only
  the custom list, depending on the visibility filter (`all`, `official`, `custom`; any
  other value behaves like `all`);
- **searches** by case-insensitive substring on palette names, replacing both lists with
  the matches (an empty query reloads instead);
- **toggles** a palette when its preview is clicked: clicking the current palette nulls the
  stored id and stylesheet and removes the live stylesheet; clicking any other palette
  stores its name and stylesheet and applies the stylesheet; the current id is then read
  back from the store.

The modal can also generate the stylesheet on demand from four role colours and records the
palette's `colors`; the settings tab always uses the palette's precomputed `import` text.

## Layout

- `palettes.dfy`, module `Palettes`: the `Colorway` palette, the JavaScript `Value`s kept in
  the store (with JavaScript truthiness), the store as a `map<string, Value>`, its key names
  (the misspelled `actveColorwayID` / `actveColorway` kept as they are), the visibility
  switch `View` and the rendered `Tile`s.
- `text.dfy`, module `Text`: ASCII `toLowerCase`, `includes`, and `split`/`join` on one
  character.
- `search.dfy`, module `Search`: `Matching`, the list a search keeps, and `FilterByName`,
  the `.find`-with-`push` scan that builds it.
- `sources.dfy`, module `Sources`: one fetch's outcome (`Rejected`, `Unparsable`,
  `Document`), the `flatMap` flattening, `Promise.all` rejection, and the official and
  custom lists as read through the store.
- `selector_modal.dfy`, module `ColorwaysSelectorModal`: class `SelectorModal`, and `Open`,
  which mounts it (the constructor, then the effect's first load).
- `selector.dfy`, module `ColorwaysSelector`: class `Selector`, its `Open`, a client method that clicks
  a palette twice, and `MidnightScenario`, a client that loads one source listing one palette
  and activates it.

Each class holds the component's state as fields (`colorways`, `customColorways`,
`currentColorway`, `visibility`), plus the store and the live stylesheet (`Option<string>`,
None once removed). `LoadUI`, `SearchColorways`, `ClickPreview` and `SelectFilter` are
methods that state the whole new state in terms of the old one and of the network's answers.

Behaviour of the code that the model keeps as written:

- `colorways || fallbackColorways` never selects the fallback list: the left operand is
  always an array, and every array, even an empty one, is truthy. When every source fails to
  parse, the official list is empty, not the fallback list (`Palettes.ArrayOr`,
  `Sources.AllUnparsableLoadsNothing`), although the fallback was evidently meant for that
  case.
- A fetch that rejects (as opposed to a body that does not parse) makes `Promise.all`
  reject, so the whole reload or search changes nothing.
- The modal passes the role colours to `generateCss` in the order primary, secondary,
  tertiary, accent, each as `getHex(colour).split("#")[1]`, which is `undefined` when the
  hex form has no `#`.
- The modal renders tiles only when the filter is one of the three menu values; the
  settings tab renders them for any value. The modal's filter starts as `all` and only the
  menu changes it, so its guard always passes; the settings tab can start with any
  `visibleTabProps` value.
- Clearing a search reloads from the network, because the search overwrote the loaded lists.

## Model

| member | source | states |
|---|---|---|
| Palettes.ArrayOr | src/plugins/Colorways/components/selectorModal.tsx:79 | `colorways \|\| fallbackColorways` on an array always yields the array itself, the empty array included: the fallback is never used |
| Palettes.PaletteArrayRoundTrip | src/plugins/Colorways/components/selectorModal.tsx:75-80 | a palette list written to the store as an array reads back as the same list |
| Palettes.Truthy | src/plugins/Colorways/components/selectorModal.tsx:79 | `undefined`, `null`, `false` and `""` are the only falsy values; every array, the empty one included, is truthy |
| Palettes.View | src/plugins/Colorways/components/selectorModal.tsx:46-59 | the visible list is the official list (unless the filter is `custom`) followed by the custom list (unless the filter is `official`), each in its own order |
| Palettes.PalettesInWritten | src/plugins/Colorways/components/selectorModal.tsx:75-81 | an array that holds only palettes is exactly the array written for the list it holds, so reading a palette list back and writing it are inverse both ways |
| Palettes.UnknownFilterIsAll | src/plugins/Colorways/components/selector.tsx:56-58 | a filter value other than `all`, `official`, `custom` gives the same list as `all` |
| Palettes.ViewMembers | src/plugins/Colorways/components/selector.tsx:46-59 | a palette is visible exactly when it is in a list the filter shows |
| Palettes.ActiveTilesShareName | src/plugins/Colorways/components/selectorModal.tsx:365 | a tile is active iff its name equals the current id, so all active tiles bear one name |
| Text.Lower | src/plugins/Colorways/components/selectorModal.tsx:101 | lower-casing keeps the length and maps each character on its own (ASCII letters only) |
| Text.LowerIdempotent | src/plugins/Colorways/components/selector.tsx:101 | lower-casing twice equals lower-casing once |
| Text.Split | src/plugins/Colorways/components/selectorModal.tsx:441-444 | `split("#")` gives at least one piece, and more than one exactly when the text contains `#` |
| Text.JoinSplit | src/plugins/Colorways/components/selectorModal.tsx:441-444 | `split("#")` loses nothing: joining the pieces with `#` restores the string |
| Text.SplitPartsFree | src/plugins/Colorways/components/selectorModal.tsx:441-444 | no piece of `split("#")` contains `#` |
| Text.SplitWithoutSeparator | src/plugins/Colorways/components/selectorModal.tsx:441-444 | a string with no `#` splits into itself alone |
| Search.NameMatches | src/plugins/Colorways/components/selectorModal.tsx:101 | the empty query matches every palette name |
| Search.Matching | src/plugins/Colorways/components/selector.tsx:99-103 | a search keeps no more palettes than it is given |
| Search.FilterByName | src/plugins/Colorways/components/selectorModal.tsx:99-108 | the full scan that pushes matching palettes returns exactly the palettes whose lower-cased name contains the lower-cased query, in input order |
| Search.MatchingMembers | src/plugins/Colorways/components/selector.tsx:99-108 | a palette is kept iff it is in the input and its lower-cased name contains the lower-cased query |
| Search.MatchingAppend | src/plugins/Colorways/components/selectorModal.tsx:99-103 | searching a concatenation equals concatenating the searches of the parts |
| Search.MatchingIsSubsequence | src/plugins/Colorways/components/selector.tsx:99-103 | the kept palettes are a subsequence of the input: original relative order is preserved |
| Search.MatchingIdempotent | src/plugins/Colorways/components/selector.tsx:104-108 | searching the results again with the same query changes nothing |
| Search.QueryCaseIrrelevant | src/plugins/Colorways/components/selectorModal.tsx:106 | two queries that lower-case alike keep the same palettes |
| Search.SearchCommutesWithView | src/plugins/Colorways/components/selectorModal.tsx:99-110 | building the visible list from the two searched lists equals searching the visible list of the unsearched ones |
| Sources.FetchAllResolves | src/plugins/Colorways/components/selectorModal.tsx:65-73 | `Promise.all` over the fetches of the URL list resolves exactly when no URL's fetch rejects |
| Sources.LoadedOfficial | src/plugins/Colorways/components/selector.tsx:62-74 | the official list loads exactly when the store holds an array of URL strings under `colorwaySourceFiles` and no fetch of those URLs rejects |
| Sources.StoredCustom | src/plugins/Colorways/components/selectorModal.tsx:75-81 | the custom list read from the store is one whose array form is exactly what the store holds under `customColorways` |
| Sources.FlattenAppend | src/plugins/Colorways/components/selectorModal.tsx:74 | flattening the answers of two runs of sources is the first run's palettes followed by the second's: sources contribute in URL order |
| Sources.FlattenMembers | src/plugins/Colorways/components/selector.tsx:74 | a palette is loaded iff some source's document lists it |
| Sources.FlattenOfUnparsable | src/plugins/Colorways/components/selectorModal.tsx:70-73 | answers that all fail to parse flatten to the empty list |
| Sources.AllUnparsableLoadsNothing | src/plugins/Colorways/components/selector.tsx:61-79 | when every configured source fails to parse, the official list loaded is empty |
| Sources.TextsOfStrings | src/plugins/Colorways/components/selector.tsx:62-66 | a URL list written to the store as an array reads back as the same list |
| ColorwaysSelectorModal.HexDigits | src/plugins/Colorways/components/selectorModal.tsx:441-444 | `getHex(colour).split("#")[1]` is a string exactly when the hex form contains `#`, and `undefined` otherwise |
| ColorwaysSelectorModal.HexDigitsOfHashColour | src/plugins/Colorways/components/selectorModal.tsx:441-444 | for a hex colour `#digits`, `split("#")[1]` passes `digits` to the stylesheet generator |
| ColorwaysSelectorModal.SelectorModal.constructor | src/plugins/Colorways/components/selectorModal.tsx:37-43 | the modal starts with current id `""`, both lists empty and filter `all` |
| ColorwaysSelectorModal.SelectorModal.ShowsEmptyNotice | src/plugins/Colorways/components/selectorModal.tsx:337-350 | "No colorways..." shows exactly when every list the filter shows is empty |
| ColorwaysSelectorModal.SelectorModal.Tiles | src/plugins/Colorways/components/selectorModal.tsx:352-368 | one tile per visible palette in order when the filter is a menu value, none otherwise; a tile is active iff its name is the current id |
| ColorwaysSelectorModal.SelectorModal.LoadUI | src/plugins/Colorways/components/selectorModal.tsx:61-82 | on success the official list is the flattened source lists, the custom list and current id are the stored ones; on rejection nothing changes; the stored stylesheet and the live one stay as in sync as before |
| ColorwaysSelectorModal.SelectorModal.SearchColorways | src/plugins/Colorways/components/selectorModal.tsx:86-111 | empty query: a full reload; other query: both lists become the matching palettes of the freshly loaded lists, every visible palette matches, and the current id is unchanged; the stored stylesheet and the live one stay as in sync as before |
| ColorwaysSelectorModal.SelectorModal.ClickPreview | src/plugins/Colorways/components/selectorModal.tsx:422-457 | clicking the current palette nulls `actveColorwayID` and `actveColorway` and removes the stylesheet; any other palette stores its colours, name and one stylesheet text (generated when `onDemandWays` is truthy, else `import`) that is also applied; the current id is the store's read-back; the palette's active state flips; no other key changes |
| ColorwaysSelectorModal.SelectorModal.SelectFilter | src/plugins/Colorways/components/selectorModal.tsx:149-152 | choosing one of the three menu values sets the filter and persists it under `colorwaysBtnPos`; the stored stylesheet text and the live stylesheet stay as in sync as before |
| ColorwaysSelectorModal.Open | src/plugins/Colorways/components/selectorModal.tsx:113-118 | mounting starts with filter `all` and loads the lists once through the effect (the search text is still empty): on success the lists and current id are the loaded ones, on rejection they keep their initial values |
| ColorwaysSelectorModal.UnknownFilterRendersNoTiles | src/plugins/Colorways/components/selectorModal.tsx:337-352 | with a filter outside the menu the modal would render no tile, and "No colorways..." would show only when both lists are empty; the modal's filter never leaves the menu, so the guard always passes |
| ColorwaysSelector.Selector.constructor | src/plugins/Colorways/components/selector.tsx:32-43 | the filter starts as `visibleTabProps`, `all` when the prop is absent |
| ColorwaysSelector.Selector.ShowsEmptyNotice | src/plugins/Colorways/components/selector.tsx:305-318 | "No colorways..." shows exactly when every list the filter shows is empty |
| ColorwaysSelector.Selector.Tiles | src/plugins/Colorways/components/selector.tsx:320-335 | one tile per visible palette in order, for every filter value; a tile is active iff its name is the current id |
| ColorwaysSelector.Selector.LoadUI | src/plugins/Colorways/components/selector.tsx:61-82 | on success the official list is the flattened source lists, the custom list and current id are the stored ones; on rejection nothing changes; the stored stylesheet and the live one stay as in sync as before |
| ColorwaysSelector.Selector.SearchColorways | src/plugins/Colorways/components/selector.tsx:86-111 | empty query: a full reload; other query: both lists become the matching palettes of the freshly loaded lists, every visible palette matches, and the current id is unchanged; the stored stylesheet and the live one stay as in sync as before |
| ColorwaysSelector.Selector.ClickPreview | src/plugins/Colorways/components/selector.tsx:389-426 | clicking the current palette nulls `actveColorwayID` and `actveColorway` and removes the stylesheet; any other palette stores its name and its `import` text verbatim, which is also applied; `activeColorwayColors` is untouched; the current id is the store's read-back; the palette's active state flips |
| ColorwaysSelector.Selector.SelectFilter | src/plugins/Colorways/components/selector.tsx:149-152 | choosing one of the three menu values sets the filter and persists it under `colorwaysBtnPos`; the stored stylesheet text and the live stylesheet stay as in sync as before |
| ColorwaysSelector.Open | src/plugins/Colorways/components/selector.tsx:113-118 | mounting starts with the filter from `visibleTabProps` (`all` when absent) and loads the lists once through the effect: on success the lists and current id are the loaded ones, on rejection they keep their initial values |
| ColorwaysSelector.ClickTwice | src/plugins/Colorways/components/selector.tsx:390-415 | clicking an inactive palette twice switches it on and off: it ends inactive with current id null, no stylesheet applied, both active keys null, and only the store, the stylesheet and the current id change |
| ColorwaysSelector.UnknownFilterRendersAll | src/plugins/Colorways/components/selector.tsx:305-320 | with a filter outside the menu the settings tab renders a tile for every official and custom palette, the official ones first, each in its own order |

## Left out

- Network I/O (`fetch`, `res.json()`, `Promise.all`): each URL's outcome is given by a parameter `net: string -> FetchResult`.
- Asynchrony: overlapping reloads and searches that resolve out of order are not modelled; each handler runs to completion in one step, and the un-awaited `DataStore.set` calls are taken to land in order before the read-back of `actveColorwayID`.
- `DataStore` itself: a `map<string, Value>` field; persistence and its implementation are not modelled.
- `generateCss` and `getHex` are not part of this model: they are parameters, deterministic by construction.
- The contents of `fallbackColorways` are not part of this model: a constructor parameter, never used by the code.
- `ColorwayCSS` is modelled only as the stylesheet text it holds.
- ColorwaysSelectorModal.SelectorModal.LoadUI: when the store's `customColorways` is not an array of palettes, the source still sets the official list and puts whatever value the store holds into the custom-list state (what the next render then does depends on that value and on the filter); the model treats the whole reload as rejected and changes nothing.
- ColorwaysSelector.Selector.LoadUI: same simplification as the modal's `LoadUI` for a `customColorways` value that is not an array of palettes.
- SearchColorways (both classes): the same simplification for a `customColorways` value that is not an array of palettes, which the source would scan with `.find`.
- A source document without a `colorways` array (which `flatMap` would insert as a single element), and a URL array holding non-strings (which `fetch` would stringify): the model treats the first as outside `FetchResult` and the second as a rejected load.
- Text.Lower: lower-cases ASCII letters only; Unicode case mapping is not modelled.
- The effect at selectorModal.tsx:113-118 and selector.tsx:113-118 runs whenever the search text changes. Its first run, on mount, is the component's only initial load; `Open` in each module models it as the constructor followed by `LoadUI`. Its later runs, when the search text becomes empty again, repeat the reload that the empty search already performs, and are not modelled separately.
- Rendering details: SVG, tooltips, loader height, search-bar visibility, the preview colour swatches, the info, creator and colour-picker modals, `SettingsRouter`, and the lazy module loading of the settings tab.
- src/components/Icons.tsx and src/plugins/BetterSessions/components/icons.tsx (static markup), src/plugins/fakemute.ts (text substitutions into the host bundle) and src/plugins/DontLeak/index.ts (event listeners and a CSS class toggle on the page body).
