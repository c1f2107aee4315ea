# Bike-Buddy in Dafny

Bike-Buddy is a cycling map. The application does the following:

- It stores points of interest (toilets, drinking water, cafés) in a MongoDB collection.
- It serves them through two API routes, `/api/pois` and `/api/pois-diff`.
- It seeds the collection from OpenStreetMap through the Overpass interpreter.
- It shows the points of interest on a Leaflet map. Users can filter them by category and, once a route is loaded, by closeness to that route.
- It imports routes from GPX files and offers place search through a geocoder.

This project models the logic of that application:

- the two API routes, over a collection given as a sequence of documents;
- the Overpass normalisation and the seeding loop, with the network outcome as a parameter;
- the map's visible-set filter and its state handlers;
- the category selection;
- the route context and the route-display hook;
- the two place-search components and the mobile bottom panel;
- the three GPX import paths;
- the category-button hook.

Files and modules:

- `wrappers.dfy`: `Option`, `Result`.
- `seqs.dfy`: `Filter`, subsequences, and the push-while-walking shape `KeepMap`.
- `text.dfy`: JavaScript `split`, `trim`, `toLowerCase` and `endsWith` on `seq<char>`.
- `types.dfy`: the shared records, plus query-string parameters (module `Query`).
- One module per source file, named after it: `PoisDiff`, `PoisApi`, `MapView`, `PoiFilter`, `RouteContext`, `RouteDisplay`, `LocationSearch`, `SearchBox`, `MobileBottomPanel`, `FetchOsm`, `SeedPois`, `MobileRouteUpload`, `MapButton`, `MobileToolbar`, `PoiTypesHook`.
- `SearchCommon`: the keyboard and display-name logic that the two search components share word for word.
- `Gpx`: the GPX parsers. The hook and the map button use the same flat parser; the mobile toolbar has its own nested parser.

Modelling conventions:

- React state and refs become fields of a class. Each handler becomes a method whose `ensures` gives the whole new state.
- Pure computations become functions, with lemmas that relate them to an independent description.
- Loops in the source stay loops. The GPX `forEach` pushes, the seeding loops and the `/api/pois` filter construction are proved against specification functions.
- Coordinates are exact reals. `parseFloat`/`parseInt` readings are inputs: a query parameter carries its reading, and `None` stands for NaN.
- A GPX attribute is `Missing` or `Present(text, reading)`. This keeps `getAttribute(..) || "0"` visible.
- The database, the network, the clock and the DOM are parameters: sequences of documents, fetch outcomes, a `now` string, and already extracted XML values.

Two places where the files disagree with each other are modelled as written:

- `RouteData` carries `coordinates` (src/types/RouteData.ts). The map's adjacency filter reads `routeData?.points`, which only the mobile toolbar's `{ name, points }` object has. The map therefore holds a `MapRoute` that is either kind. A route loaded as `RouteData` never narrows the map.
- The mobile toolbar keeps a point whose coordinate parses to NaN (`lat !== 0`). The flat parser drops it (`lat && lon`). `Gpx.ParsersDisagreeOnNaN` exhibits such a point. The map's proximity test is false for a NaN vertex.

A third disagreement is a fault, recorded under "## Findings": `usePoiTypes` reads `activeTypes` from the filter context, which provides only `selectedTypes`, so the hook as written throws on every call (`PoiTypesHook.UsePoiTypesAsWritten`). The rest of the model uses `PoiTypesHook.UsePoiTypes`, which decorates the buttons from `selectedTypes` as intended.

## Model

| member | source | states |
|---|---|---|
| PoisDiff.Handle | src/pages/api/pois-diff.ts:17-78 | The answer is the 400 "Missing required bbox params" exactly when one of south/west/north/east is absent or empty |
| PoisDiff.KeyOrder | src/pages/api/pois-diff.ts:65-66 | Map key order lists every id of the documents once and nothing else |
| PoisDiff.MapOf | src/pages/api/pois-diff.ts:65-66 | The Map's keys are exactly the document ids and each entry is a document carrying that id |
| PoisDiff.FormatPoi | src/pages/api/pois-diff.ts:86-101 | `formatPOI` keeps id, osmId, name, lat, lon, type and source; present tags are kept, absent tags become an empty map |
| PoisDiff.FormatAll | src/pages/api/pois-diff.ts:53 | One formatted record per current document, in collection order |
| PoisDiff.FormatKeys | src/pages/api/pois-diff.ts:69-76 | One formatted record per key, each the formatted Map entry for that key |
| PoisDiff.SelectExactly | src/pages/api/pois-diff.ts:44-49 | A document is selected iff it is in the collection and inside the box, edges included |
| PoisDiff.MissingExactly | src/pages/api/pois-diff.ts:65-76 | The keys of one side missing from the other are exactly the ids present there and absent here, each once, in Map order, each paired with a formatted document of that side |
| PoisDiff.MissingSelf | src/pages/api/pois-diff.ts:65-76 | Comparing a set of documents with itself leaves nothing missing |
| PoisDiff.FirstRequestAddsAll | src/pages/api/pois-diff.ts:30-55 | Without a truthy prevSouth the answer adds every current document (formatted, in order, all inside the box) and removes nothing |
| PoisDiff.MissingIds | src/pages/api/pois-diff.ts:65-76 | The ids of a missing list are all present, distinct, and exactly those of one side that the other lacks |
| PoisDiff.DiffExactly | src/pages/api/pois-diff.ts:58-78 | With a previous box, `added` holds exactly the current ids absent before and `removed` holds exactly the previous ids absent now; neither repeats an id, the two are disjoint, and `added` follows current Map order |
| PoisDiff.IdsOfKeys | src/pages/api/pois-diff.ts:69-76 | Records built one per key carry exactly those keys as ids and stay duplicate-free |
| PoisDiff.SameBoxEmptyDiff | src/pages/api/pois-diff.ts:44-76 | A previous box equal to the current box gives empty `added` and `removed` |
| PoisApi.Limited | src/pages/api/pois.ts:49 | `limit(0)` returns everything; `limit(n)` returns the first min(abs(n), count) documents |
| PoisApi.Handle | src/pages/api/pois.ts:6-55 | Any method other than GET gets 405; otherwise the documents found equal the specified answer for the type, box and limit parameters |
| PoisApi.AnswerSound | src/pages/api/pois.ts:19-41 | Every answered document satisfies the type constraint and, when the box applies, the inclusive box; answers keep collection order |
| PoisApi.AnswerComplete | src/pages/api/pois.ts:19-53 | Without an applicable non-zero limit every admitted document is answered |
| PoisApi.AnswerLimited | src/pages/api/pois.ts:46-51 | An applicable limit n other than 0 caps the answer at abs(n) documents, and fills it when enough documents match |
| PoisApi.NoLimitUnlessSingleInteger | src/pages/api/pois.ts:46-51 | A limit given as a list, or one that does not parse as an integer, leaves the answer unlimited |
| MapView.Points | src/components/Map.tsx:105 | The route has a `points` list exactly when it is the parsed-GPX kind |
| MapView.AnyNear | src/components/Map.tsx:108-115 | True iff some route vertex lies at squared degree distance below 0.0001 |
| MapView.FilteredSound | src/components/Map.tsx:101 | Every visible record comes from `pois` with a selected type, and relative order is kept |
| MapView.CategoryOnlyWithoutPoints | src/components/Map.tsx:105-119 | With adjacency off, no route, or a route without `points`, only the category filter applies |
| MapView.AdjacentExactly | src/components/Map.tsx:105-116 | With adjacency on and route points, a record is visible iff it is in `pois`, its type is selected and some vertex is within 0.01 degrees |
| MapView.EmptyRouteShowsNothing | src/components/Map.tsx:105-108 | With adjacency on and an empty points list nothing is visible |
| MapView.Projection | src/components/Map.tsx:52-53 | The change test compares the `(id, lat, lon)` of each record, one per record |
| MapView.NextPois | src/components/Map.tsx:51-55 | The updater keeps the previous list when the projections agree and takes the fetched list otherwise; the projection afterwards is always the fetched one |
| MapView.MapState.constructor | src/components/Map.tsx:32-37 | Empty list, no route, adjacency off, centre (37.7749, -122.4194), key 0 |
| MapView.MapState.HandleBboxUpdate | src/components/Map.tsx:43-61 | A failed fetch or decoding leaves the list; an array installs the updater's result; a non-array body (the 500 `{ error }` answer) makes the updater throw and the list stays; nothing else changes |
| MapView.MapState.HandleLocationSelect | src/components/Map.tsx:64-78 | The centre becomes the selected point and the key grows by exactly one |
| MapView.MapState.HandleRouteLoad | src/components/Map.tsx:81-84 | The route is stored; nothing else changes |
| MapView.MapState.HandleRouteRemove | src/components/Map.tsx:87-91 | The route is cleared and adjacency switched off, so the visible set is the category filter alone |
| MapView.MapState.HandlePOIToggle | src/components/Map.tsx:94-97 | The adjacency flag takes the given value; nothing else changes |
| PoiFilter.Toggled | src/context/PoiFilterContext.tsx:16-20 | A selected type is removed entirely, which makes the list shorter; an unselected type is appended; the membership of every other type is unchanged |
| PoiFilter.ToggledNoDups | src/context/PoiFilterContext.tsx:18 | A duplicate-free selection stays duplicate-free |
| PoiFilter.ToggleTwiceAbsent | src/context/PoiFilterContext.tsx:16-20 | Toggling an unselected type twice restores the exact list |
| PoiFilter.ToggleTwicePresent | src/context/PoiFilterContext.tsx:16-20 | Toggling a selected type twice restores the same set, with the type moved to the end |
| PoiFilter.PoiFilterProvider.constructor | src/context/PoiFilterContext.tsx:14 | The selection starts empty |
| PoiFilter.PoiFilterProvider.ToggleType | src/context/PoiFilterContext.tsx:16-20 | The new selection is the toggle of the old one |
| PoiFilter.ToggleTwiceFromStart | src/context/PoiFilterContext.tsx:14-20 | From a fresh provider, toggling one type twice returns to the empty selection |
| RouteContext.RouteProvider.constructor | src/context/RouteContext.tsx:18-20 | No route, adjacency off, display on |
| RouteContext.RouteProvider.LoadRoute | src/context/RouteContext.tsx:22-25 | Stores the route and turns the display on; adjacency untouched |
| RouteContext.RouteProvider.RemoveRoute | src/context/RouteContext.tsx:27-30 | Clears the route and turns the display off; adjacency untouched |
| RouteContext.RouteProvider.ToggleAdjacentPOIs | src/context/RouteContext.tsx:32 | Flips only the adjacency flag |
| RouteContext.RouteProvider.ToggleRouteDisplay | src/context/RouteContext.tsx:34-37 | Flips only the display flag |
| RouteContext.ToggleRouteDisplayTwice | src/context/RouteContext.tsx:34-37 | Two display toggles restore the whole state |
| RouteDisplay.RouteDisplayState.constructor | src/hooks/useRouteDisplay.ts:5 | The display starts on |
| RouteDisplay.RouteDisplayState.Toggle | src/hooks/useRouteDisplay.ts:15-22 | Negates the flag |
| RouteDisplay.RouteDisplayState.Hide | src/hooks/useRouteDisplay.ts:24-26 | The flag becomes false |
| RouteDisplay.RouteDisplayState.Show | src/hooks/useRouteDisplay.ts:28-30 | The flag becomes true |
| RouteDisplay.RouteDisplayState.OnRouteChange | src/hooks/useRouteDisplay.ts:9-13 | A loaded route turns the display on; no route leaves it as it was |
| RouteDisplay.HasRoute | src/hooks/useRouteDisplay.ts:39 | True iff a route is loaded |
| RouteDisplay.ToggleTwice | src/hooks/useRouteDisplay.ts:15-22 | Two toggles restore the flag |
| SearchCommon.NextIndex | src/hooks/useLocationSearch.ts:77-80 | ArrowDown moves one down and wraps from the last entry to the first; from any index in [-1, len) it lands inside the list |
| SearchCommon.PrevIndex | src/hooks/useLocationSearch.ts:81-83 | ArrowUp moves one up and wraps from the first entry (or none) to the last; from any index in [-1, len) it lands inside the list |
| SearchCommon.ArrowsInverse | src/hooks/useLocationSearch.ts:77-83 | On a valid index ArrowDown and ArrowUp undo each other |
| SearchCommon.EnterChoice | src/hooks/useLocationSearch.ts:85-91 | Enter picks the highlighted result when the index is valid, otherwise the first, and nothing only when there are no results |
| SearchCommon.MainName | src/hooks/useLocationSearch.ts:106 | The query after a selection is the prefix of the display name up to its first comma |
| SearchCommon.TrimAll | src/hooks/useLocationSearch.ts:118 | Each part is trimmed, one output per part |
| SearchCommon.FirstThreeTrimmed | src/hooks/useLocationSearch.ts:117-120 | One to three parts are kept, each comma-free and already trimmed |
| SearchCommon.TrimmedJoinParts | src/hooks/useLocationSearch.ts:117-120 | Splitting a ", "-join of comma-free trimmed parts and trimming gives the parts back |
| SearchCommon.FormatDisplayNameParts | src/hooks/useLocationSearch.ts:117-120 | The formatted name has at most three comma-separated parts, and they are the first three trimmed parts of the input |
| SearchCommon.FormatDisplayNameIdempotent | src/components/toolbar/SearchBox.tsx:127-131 | Formatting an already formatted name changes nothing |
| Text.Utf16Length | src/hooks/useLocationSearch.ts:41 | `.length` counts at least one and at most two code units per character |
| Text.Utf16LengthAppend | src/hooks/useLocationSearch.ts:41 | The `.length` of a concatenation is the sum of the lengths |
| Text.Utf16LengthBasic | src/hooks/useLocationSearch.ts:41 | Without characters above U+FFFF, `.length` equals the number of characters |
| Text.Utf16LengthAstral | src/hooks/useLocationSearch.ts:41 | Characters above U+FFFF count twice each |
| LocationSearch.LocationSearchState.constructor | src/hooks/useLocationSearch.ts:22-31 | Empty query and results, not loading, index -1, the caller's minimum length |
| LocationSearch.LocationSearchState.SetQuery | src/hooks/useLocationSearch.ts:141 | Only the query changes |
| LocationSearch.LocationSearchState.QueryEffect | src/hooks/useLocationSearch.ts:36-71 | A query whose `.length` in UTF-16 code units is below the minimum clears the results and schedules nothing; otherwise a search is scheduled |
| LocationSearch.LocationSearchState.RunSearch | src/hooks/useLocationSearch.ts:46-64 | An ok answer replaces the results and resets the index; a thrown error empties the results; a non-ok status changes nothing; loading ends |
| LocationSearch.LocationSearchState.HandleKeyDown | src/hooks/useLocationSearch.ts:73-99 | With no results nothing happens; arrows wrap; Enter selects the chosen result and hands over its parsed coordinates and full name; Escape resets query, results and index |
| LocationSearch.LocationSearchState.HandleResultSelect | src/hooks/useLocationSearch.ts:101-109 | Hands `onLocationSelect` the `parseFloat` readings of `lat` and `lon` (NaN included) and the full display name; the query becomes that name before its first comma; results cleared, index -1 |
| LocationSearch.LocationSearchState.ClearSearch | src/hooks/useLocationSearch.ts:111-115 | Query, results and index reset |
| SearchBox.SearchBoxState.constructor | src/components/toolbar/SearchBox.tsx:25-29 | Empty query and results, closed, not loading, index -1 |
| SearchBox.SearchBoxState.SetQuery | src/components/toolbar/SearchBox.tsx:156 | Only the query changes |
| SearchBox.SearchBoxState.QueryEffect | src/components/toolbar/SearchBox.tsx:36-73 | A query whose `.length` in UTF-16 code units is below 2 clears the results and closes the dropdown; otherwise a search is scheduled |
| SearchBox.SearchBoxState.RunSearch | src/components/toolbar/SearchBox.tsx:47-66 | An ok answer stores the data, opens iff it is non-empty, and resets the index; a thrown error empties the results and keeps the open flag |
| SearchBox.SearchBoxState.Focus | src/components/toolbar/SearchBox.tsx:158-159 | Focusing reopens the dropdown when there are results |
| SearchBox.SearchBoxState.ClickOutside | src/components/toolbar/SearchBox.tsx:77-82 | A press outside closes the dropdown and clears the index |
| SearchBox.SearchBoxState.HandleKeyDown | src/components/toolbar/SearchBox.tsx:88-114 | Keys are ignored while closed; arrows wrap; Enter selects and hands over the result's parsed coordinates and full name; Escape closes and clears the index but keeps the query |
| SearchBox.SearchBoxState.HandleResultSelect | src/components/toolbar/SearchBox.tsx:116-125 | Hands `onLocationSelect` the `parseFloat` readings of `lat` and `lon` (NaN included) and the full display name; the query becomes that name before its first comma; the dropdown closes, the index becomes -1 and the results stay |
| MobileBottomPanel.ResultsFor | src/components/mobile/MobileBottomPanel.tsx:64-72 | The two placeholder results iff the query's `.length` in UTF-16 code units is more than two, else none |
| MobileBottomPanel.ResultsForByCharacters | src/components/mobile/MobileBottomPanel.tsx:64 | Three characters always give the placeholders and one never does; two characters give them exactly when one lies above U+FFFF |
| MobileBottomPanel.PanelModel.constructor | src/components/mobile/MobileBottomPanel.tsx:21-32 | Collapsed, empty query and results, not dragging |
| MobileBottomPanel.PanelModel.TouchStart | src/components/mobile/MobileBottomPanel.tsx:34-37 | Records the start position and starts dragging |
| MobileBottomPanel.PanelModel.TouchMove | src/components/mobile/MobileBottomPanel.tsx:39-50 | While dragging, an upward move of more than 50 expands the panel and stops dragging; otherwise nothing changes |
| MobileBottomPanel.PanelModel.TouchEnd | src/components/mobile/MobileBottomPanel.tsx:52-54 | Stops dragging |
| MobileBottomPanel.PanelModel.SearchFocus | src/components/mobile/MobileBottomPanel.tsx:56-58 | The panel moves to the search state |
| MobileBottomPanel.PanelModel.SearchChange | src/components/mobile/MobileBottomPanel.tsx:60-73 | Stores the query and its results |
| MobileBottomPanel.PanelModel.ResultSelect | src/components/mobile/MobileBottomPanel.tsx:83-88 | Hands `onLocationSelect` the result's coordinates and name; collapses, shows the name, empties the results |
| MobileBottomPanel.PanelModel.BackdropClick | src/components/mobile/MobileBottomPanel.tsx:90-96 | From search or expanded, collapses and clears; from collapsed, changes nothing |
| MobileBottomPanel.PanelModel.RemoveRouteClick | src/components/mobile/MobileBottomPanel.tsx:159-162 | The shared route is removed and the panel collapses |
| MobileBottomPanel.SelectThenBackdrop | src/components/mobile/MobileBottomPanel.tsx:83-96 | After a selection (which hands over the result's name) a backdrop click changes nothing |
| FetchOsm.OsmKey | src/utils/fetchOSMPOIs.ts:16-19 | toilet, drinking_water and cafe map to their amenity tags; any other type gets the empty key |
| FetchOsm.QuerySelectsAllKinds | src/utils/fetchOSMPOIs.ts:21-29 | The query holds node, way and relation selectors in that order, each with the same key and the box as south,west,north,east |
| FetchOsm.NameOf | src/utils/fetchOSMPOIs.ts:47 | The name is tags.name when non-empty, otherwise the type |
| FetchOsm.Coalesce | src/utils/fetchOSMPOIs.ts:48-49 | The element's own coordinate, else the center's, else 0; an explicit 0 is kept |
| FetchOsm.Normalize | src/utils/fetchOSMPOIs.ts:43-53 | The record has the requested type, source "osm", the element id, the name and coordinate rules above, and tags or an empty map |
| FetchOsm.FetchOsmPois | src/utils/fetchOSMPOIs.ts:36-53 | A non-ok answer is the error "Overpass query failed: " plus its status text; an ok answer gives one record per element, in order, all with the requested type and source "osm" |
| SeedPois.SplitBoundingBox | scripts/seedPOIs.ts:23-36 | No band for a non-positive count; otherwise exactly `slices` bands that keep west and east, and band i spans edges i and i+1 |
| SeedPois.BandsTile | scripts/seedPOIs.ts:28-35 | Consecutive bands share their edge; the first starts at south and the last ends at north; every band has the same height, (north − south) / slices |
| SeedPois.BandsCover | scripts/seedPOIs.ts:28-35 | Every latitude of the box lies in some band |
| SeedPois.Retry | scripts/seedPOIs.ts:55-73 | The retry loop makes between one and three tries |
| SeedPois.RetryExactly | scripts/seedPOIs.ts:58-73 | Every try before the last one made failed; the loop keeps the records of the successful try, or nothing after three failures |
| SeedPois.SliceBatch | scripts/seedPOIs.ts:53-73 | A band's outcome records its type, index, box, and the try count and records of the retry loop |
| SeedPois.TypeBatches | scripts/seedPOIs.ts:53 | One outcome per band, in band order |
| SeedPois.BatchesOrder | scripts/seedPOIs.ts:50-53 | There are categories × bands outcomes; the one at Position(ti, si) = ti·bands + si is band si of category ti, so categories come in order and each visits every band |
| SeedPois.CountIsSize | scripts/seedPOIs.ts:48-77 | The reported total equals the number of records inserted |
| SeedPois.AllFailedInsertsNothing | scripts/seedPOIs.ts:56-83 | A band whose three tries fail makes three tries and inserts nothing |
| SeedPois.RetrySlice | scripts/seedPOIs.ts:55-73 | The retry loop computes the band's specified outcome |
| SeedPois.SeedType | scripts/seedPOIs.ts:53-86 | The band loop appends one outcome per band, inserts the non-empty ones and adds their sizes to the total |
| SeedPois.SeedTypes | scripts/seedPOIs.ts:48-88 | The category loop, from an empty collection, yields every category's outcomes in order; the collection is the concatenation of the inserted records and the total is its size |
| SeedPois.Seed | scripts/seedPOIs.ts:38-90 | The collection after seeding is the concatenation of all batch records in category-then-band order; the total is their count |
| Gpx.Reading | src/hooks/useMobileRouteUpload.ts:21-22 | An absent or empty attribute reads as 0; otherwise its parsed reading |
| Gpx.RouteName | src/hooks/useMobileRouteUpload.ts:13-16 | The track name, else the route name, else "Imported Route"; the result is never empty |
| Gpx.FlatPointsExactly | src/hooks/useMobileRouteUpload.ts:20-24 | A point is kept iff both readings are non-zero numbers; kept vertices are such readings; pieces of the document contribute in document order |
| Gpx.ParseFlat | src/hooks/useMobileRouteUpload.ts:9-27 | The parser's loop yields the route name and exactly the flat-kept points |
| Gpx.ToCoordinates | src/hooks/useMobileRouteUpload.ts:50 | One `[lat, lon]` pair per vertex, same order |
| Gpx.FromCoordinates | src/types/RouteData.ts:4 | One vertex per `[lat, lng]` pair |
| Gpx.CoordinatesRoundTrip | src/hooks/useMobileRouteUpload.ts:50 | Reading the pairs back gives the vertices |
| Gpx.GroupsKeptInOrder | src/components/toolbar/MobileToolbar.tsx:83-92 | The nested walk over segments equals one pass over their points in document order |
| Gpx.TracksKeptInOrder | src/components/toolbar/MobileToolbar.tsx:80-93 | The walk over tracks equals one pass over all track points in document order |
| Gpx.RoutesOnlyAsFallback | src/components/toolbar/MobileToolbar.tsx:95-108 | With a kept track point, the result is exactly the kept track points; otherwise it is exactly the kept route points |
| Gpx.ToolbarDropsOnlyZero | src/components/toolbar/MobileToolbar.tsx:86-89 | No kept vertex has a zero coordinate, and a point with a missing attribute is dropped |
| Gpx.ParseToolbar | src/components/toolbar/MobileToolbar.tsx:67-114 | The nested loops yield the route name and the specified toolbar points |
| Gpx.PushGroups | src/components/toolbar/MobileToolbar.tsx:83-91 | Walking groups appends exactly their kept points |
| Gpx.PushPoints | src/components/toolbar/MobileToolbar.tsx:85-91 | Walking one group's points appends, in order, exactly those whose readings are not 0 |
| Gpx.ParsersDisagreeOnNaN | src/components/toolbar/MobileToolbar.tsx:88 | A point with an unparsable lat is dropped by the flat parser and kept by the toolbar's |
| Gpx.FlatKeptIsToolbarKept | src/components/toolbar/MobileToolbar.tsx:88 | Every point the flat parser keeps, the toolbar's parser keeps with the same readings |
| Gpx.Upload | src/hooks/useMobileRouteUpload.ts:29-60 | No file means nothing; an unreadable file, a non-.gpx name or no kept points each give their message; a readable .gpx file with kept points always loads, as a route with id `now`, the parsed name and one pair per kept point |
| Gpx.GpxNameExactly | src/hooks/useMobileRouteUpload.ts:35 | For every name: accepted iff it has at least four characters and ends in '.', g/G, p/P, x/X, so case is ignored and the whole ".gpx" suffix is needed |
| Gpx.ExtensionIgnoresCase | src/hooks/useMobileRouteUpload.ts:35 | Any stem followed by a four-character extension that lower-cases to ".gpx" is accepted |
| MobileRouteUpload.RouteUpload.constructor | src/hooks/useMobileRouteUpload.ts:6 | No error |
| MobileRouteUpload.RouteUpload.HandleFileUpload | src/hooks/useMobileRouteUpload.ts:29-60 | No file changes nothing; a failure sets its message and loads nothing; success loads the route into the context and clears the error |
| MobileRouteUpload.RouteUpload.ClearError | src/hooks/useMobileRouteUpload.ts:62 | The error becomes null |
| MapButton.MapButtonState.constructor | src/components/toolbar/MapButton.tsx:9 | No error |
| MapButton.MapButtonState.HandleFileChange | src/components/toolbar/MapButton.tsx:35-66 | No file changes nothing; a failure sets its message and loads nothing; success loads the route into the context and clears the error |
| MapButton.MapButtonState.ClearError | src/components/toolbar/MapButton.tsx:68 | The error becomes null |
| MobileToolbar.ToolbarUpload | src/components/toolbar/MobileToolbar.tsx:116-146 | No file means nothing; an unreadable file, a non-.gpx name or no kept points each give their alert; a readable .gpx file with toolbar points always loads, as `{ name, points }` with the toolbar parser's non-empty points |
| MobileToolbar.ToolbarState.constructor | src/components/toolbar/MobileToolbar.tsx:28-29 | Panel and menu closed |
| MobileToolbar.ToolbarState.HandleFileUpload | src/components/toolbar/MobileToolbar.tsx:116-146 | A failure returns its alert and changes nothing; success hands the parsed route to the map and closes the panel |
| MobileToolbar.ToolbarState.HandlePOIToggle | src/components/toolbar/MobileToolbar.tsx:148-150 | Negates the menu flag |
| MobileToolbar.ToolbarState.ClosePOIMenu | src/components/toolbar/MobileToolbar.tsx:186 | Closes the menu |
| MobileToolbar.ToolbarState.TogglePanel | src/components/toolbar/MobileToolbar.tsx:232 | Negates the panel flag |
| PoiTypesHook.Decorate | src/hooks/usePoiTypes.ts:18-28 | Exactly three buttons with the fixed keys, labels and colours, each selected iff its key is in the selection |
| PoiTypesHook.AsWrittenAlwaysThrows | src/hooks/usePoiTypes.ts:15-28 | As written the hook reads `activeTypes`, which the context value does not have, so decorating the first button throws for every context value |
| PoiTypesHook.UsePoiTypes | src/hooks/usePoiTypes.ts:14-28 | With the context's `selectedTypes`, three buttons in category order, each selected iff its key is selected |
| PoiTypesHook.DecorateOrder | src/hooks/usePoiTypes.ts:18-22 | The buttons come in the order toilet, drinking_water, cafe |
| PoiTypesHook.Find | src/hooks/usePoiTypes.ts:31 | Nothing iff no button has the key; otherwise the first button with it |
| PoiTypesHook.ButtonStyleExactly | src/hooks/usePoiTypes.ts:30-36 | An unknown or unselected key gets the empty style; a selected category gets its colour as background and border and white text |
| PoiTypesHook.StyledIffSelected | src/hooks/usePoiTypes.ts:30-36 | A button is styled iff its key is a category and is selected |

## Findings

| source | as written | input that shows it | evidently intended | confidence | as-written member | corrected member |
|---|---|---|---|---|---|---|
| src/hooks/usePoiTypes.ts:15-27 | destructures `activeTypes` from the filter context, whose value (src/context/PoiFilterContext.tsx:23) holds only `selectedTypes` and `toggleType`; `activeTypes.includes` then throws | any render of the hook, for example with `selectedTypes = []` | decorate the buttons from `selectedTypes` | not executed; high, by reading the two files | PoiTypesHook.AsWrittenAlwaysThrows | PoiTypesHook.UsePoiTypes |

## Left out

- Database, network and file I/O: the MongoDB client, `deleteMany`, `insertMany`, `find`, the `fetch` calls to the geocoder, to Overpass and to `/api/pois`, and `file.text()`. Their results are inputs.
- The 500 answers of the two API routes: they come from exceptions in that I/O. How the map handles a 500 body is modelled by `MapView.MapState.HandleBboxUpdate`.
- Timers and debouncing: the 300 ms search delay, the seeder's `sleep` and `DELAY_MS`, and the toolbar's appearance delay. A scheduled search is a flag and its completion is a separate method.
- Geolocation, `setView`, map events, the `e.target.value` reset, the input `blur` calls, and rendering in general.
- `highlightText`: regular-expression machinery that only affects rendering.
- `handleSearchSubmit` in the mobile panel: it only logs.
- Logging and alerts: alerts are return values.
- IEEE floating point: coordinates, band edges and distances are exact reals. `Math.sqrt(d) < 0.01` is stated as `d < 0.0001`. `parseFloat`'s `Infinity` is not distinguished from other numbers.
- Number-to-text conversion in the Overpass query: `FetchOsm.QueryText` takes it as a parameter.
- JSON serialisation, for example `-0` printing as `0` in the map's change test: the projection is compared as values.
- Unicode case folding and trimming: `toLowerCase` folds ASCII letters only; `trim` uses the JavaScript whitespace set.
- The DOM parser: a GPX document is its extracted names and point lists. A malformed document is not modelled separately from a readable one without points.
- MongoDB comparisons with NaN: a box edge that parses to NaN makes `PoisDiff` select nothing, which is how MongoDB compares NaN with stored numbers.
- FetchOsm.Normalize: both timestamps take the one `now` parameter, whereas the source reads the clock once for each field of each element.
- PoisApi.Handle: the model assumes each stored document's type is a plain string, so `$in` and equality are the only type tests.
- MapView.MapState.HandleLocationSelect: takes exact coordinates. A search result whose `lat` or `lon` parses to NaN is handed over as `None` by the select handlers, but the map's handling of a NaN centre is not modelled.
- MobileUIContext, AppProviders, usePoiData, the layout-only components and the cluster icons are not part of this model.
