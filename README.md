# Transkampus Medan map core, in Dafny

This project models the in-memory logic behind the campus-transport map of Medan. The map shows:

- campuses and their facilities;
- stations and stops;
- angkot (minibus) routes;
- districts (kecamatan).

The modelled parts are:

- **Route finder** (`RoutingService`). A brute-force search finds the route vertex nearest to a location. A single-route path joins the vertices nearest to a start location and to a campus, with its length and duration.
- **GeoJSON reordering** (`MapUtils`, `MapTypes`). GeoJSON stores positions as [longitude, latitude] (RFC 7946, section 3.1.1). These helpers turn them into Leaflet's [latitude, longitude] and keep every level of nesting.
- **Search box** (`SearchControl`). A case-insensitive substring search over five record lists, and the state of the search box. Choosing a result clears the list and schedules a highlight.
- **Highlight state** (`HighlightUtils`). The module-level references to at most one highlighted marker, line or area, and the pending five-second timer that clears it.
- **District endpoint** (`KecamatanByRoute`). The mock "districts by route" endpoint: validation, route lookup and district filter over the hard-coded arrays.
- **Map page** (`MapPage`). The handlers for start-location selection, reset, district visibility, district delete and district recolour, and the toasts they show.
- **Sidebar** (`MapSidebar`). The colour record, the debounced rule for which districts get an `onChangeKecamatanColor` call, the reset handler, and the empty-selection branches.
- **Small classifiers** (`MarkerCluster`, `MapIcons`). The size and colour of cluster icons, the cluster group settings, and the station-type icon choice.

Shared helpers live in `Wrappers` (`Option`), `Seqs` (`Find`, `Filter`, `Map`) and `Text`. `Text` holds ASCII `toLowerCase`, JavaScript `trim` whitespace, `includes`, `parseInt`, and decimal printing of numbers.

The shape of each part follows the code:

- Pure helpers are functions, with lemmas about them.
- The module-level highlight references are a class, `HighlightUtils.Highlighter`.
- React component state is a class per component, `MapPage.Page`, `MapSidebar.Sidebar` and `SearchControl.SearchBox`. Each handler is a method.
- The page and the sidebar also have a `State()` value holding all their fields. A handler's contract gives the new `State()` as the old one with only the slots it writes replaced, so every other slot is stated unchanged.
- The loops are methods with loop invariants, each proved equal to a specification function:
  - the vertex scan;
  - the leg sum;
  - the visibility and colour records;
  - the debounced call loop;
  - the highlight `forEach` loops.
- Distance (`calculateDistance`, the haversine formula) is a parameter `dist`, and nothing is assumed about it.
- Toasts are recorded in a `toasts` log on the component that shows them.

## Model

| member | source | states |
|---|---|---|
| MapTypes.Swap | src/components/map/map-utils.ts:3 | `[c[1], c[0]]` exchanges the two coordinates |
| MapTypes.SwapInvolutive | src/components/map/map-utils.ts:3 | swapping twice gives the original pair back |
| MapTypes.SwapAll | src/components/map/map-utils.ts:11 | a swapped path has the same length and vertex k is vertex k swapped |
| MapUtils.GetLatLngFromGeoJSON | src/components/map/map-utils.ts:2-4 | the result is [latitude, longitude], the stored position reversed |
| MapUtils.GetLatLngRoundTrip | src/components/map/map-utils.ts:2-4 | reversing the result again gives the stored position |
| MapUtils.SwapPaths | src/components/map/map-utils.ts:13-15 | one output path per input path, each swapped vertex by vertex |
| MapUtils.ProcessRouteGeometry | src/components/map/map-utils.ts:7-19 | a null geometry gives []; a LineString gives one path of its swapped coordinates; a MultiLineString gives one swapped path per line; anything else gives [] |
| MapUtils.ProcessPolygonGeometry | src/components/map/map-utils.ts:22-36 | a Polygon keeps its ring count and ring lengths; a MultiPolygon keeps polygon, ring and vertex nesting; every position is swapped; null and other types give [] |
| MapUtils.SwapAllInvolutive | src/components/map/map-utils.ts:11 | swapping a whole path twice gives it back |
| MapUtils.SwapPathsInvolutive | src/components/map/map-utils.ts:13-15 | swapping a list of paths twice gives it back |
| MapUtils.RouteGeometryRoundTrip | src/components/map/map-utils.ts:10-15 | swapping the route paths back gives the LineString coordinates or the MultiLineString lines |
| MapUtils.PolygonGeometryRoundTrip | src/components/map/map-utils.ts:25-32 | swapping the district rings back gives the Polygon rings or the MultiPolygon polygons |
| RoutingService.FindNearestRoutePoint | src/components/map/routing-service.ts:26-64 | the nested scan with its four variables computes `NearestRoutePoint`, the scan over routes and vertices in order |
| RoutingService.ScanCoordinatesFacts | src/components/map/routing-service.ts:40-51 | within one route, the scan keeps the earlier best or ends at a strictly closer vertex, is at most every vertex's distance, and has every earlier vertex strictly farther |
| RoutingService.NearestRoutePointNone | src/components/map/routing-service.ts:35-63 | the result is null exactly when no LineString route has a vertex |
| RoutingService.NearestRoutePointMinimal | src/components/map/routing-service.ts:35-52 | the returned distance is at most the distance to every vertex of every LineString route |
| RoutingService.NearestRoutePointFirst | src/components/map/routing-service.ts:42-49 | the result is vertex `index` of a LineString route with id `routeId`, swapped, at its own distance; every vertex scanned before it is strictly farther, so ties go to the first minimum |
| RoutingService.JsSlice | src/components/map/routing-service.ts:100-101 | within bounds it is the subsequence; a start past the end or an empty range gives [] |
| RoutingService.SegmentPathShape | src/components/map/routing-service.ts:96-102 | the path has `max-min+1` vertices, from vertex `min(i,j)` to vertex `max(i,j)` in order, each swapped, and it does not depend on which index was larger |
| RoutingService.SegmentDistance | src/components/map/routing-service.ts:105-113 | the accumulating loop computes `PathLength`, the sum of legs from the start |
| RoutingService.PathLengthIsSumOfLegs | src/components/map/routing-service.ts:105-113 | the running total equals the sum of distances between consecutive vertices, counted from the front; fewer than two vertices give 0 |
| RoutingService.BuildRoute | src/components/map/routing-service.ts:89-136 | the same-route branch computes `RouteBetween`: re-find the route, slice, add up the legs, estimate duration, build one segment |
| RoutingService.FindRoute | src/components/map/routing-service.ts:67-143 | the procedure computes `PlannedRoute`: campus lookup, two nearest searches, a route only when both route ids agree |
| RoutingService.PlannedRouteNone | src/components/map/routing-service.ts:74-142 | null exactly when no campus has the id, a search finds nothing, the route ids differ, or the first route with that id is not a LineString |
| RoutingService.SameRoutePlan | src/components/map/routing-service.ts:96-136 | with distinct route ids and both nearest points on one route: one segment; `abs(i-j)+1` vertices from the earlier to the later nearest point; total distance = segment distance = sum of legs; total duration = segment duration = distance/30*60; end location = the campus swapped; campus name kept |
| SearchControl.CampusHits | src/components/map/search-control.tsx:42-44 | every hit is a campus of the list, whose `nama` or `alamat` lowercased contains the term, tagged "campus" |
| SearchControl.StationHits | src/components/map/search-control.tsx:46-48 | every hit is a station of the list matching on `nama` or `tipe` |
| SearchControl.FacilityHits | src/components/map/search-control.tsx:50-52 | every hit is a facility of the list matching on `nama` or `jenis` |
| SearchControl.RouteHits | src/components/map/search-control.tsx:54-60 | every hit is a route of the list matching on `nama` or `jenis` |
| SearchControl.KecamatanHits | src/components/map/search-control.tsx:62-64 | every hit is a district of the list matching on `nama` |
| SearchControl.BlankSearchEmpty | src/components/map/search-control.tsx:33-36 | an empty or whitespace-only term gives no results |
| SearchControl.SearchMembership | src/components/map/search-control.tsx:33-65 | a record is a result iff the term is not blank, the record is in the list its tag names, and that list's fields match the lowercased term |
| SearchControl.TypeFollowsRank | src/components/map/search-control.tsx:41-65 | each result's `type` tag names the list its group comes from |
| SearchControl.AppendGroup | src/components/map/search-control.tsx:41-65 | appending a group of equal rank to a grouped list of lower ranks keeps it grouped |
| SearchControl.SearchGroupOrder | src/components/map/search-control.tsx:41-65 | results come grouped: campuses, stations, facilities, routes, districts |
| SearchControl.GroupAppend | src/components/map/search-control.tsx:41-65 | taking one group distributes over concatenation |
| SearchControl.GroupOfConstant | src/components/map/search-control.tsx:41-65 | the group of a list of one rank is the whole list or nothing |
| SearchControl.GroupOfFive | src/components/map/search-control.tsx:41-65 | taking one group of five concatenated lists is taking it from each |
| SearchControl.GroupOfResults | src/components/map/search-control.tsx:41-65 | group n of the combined list is exactly list n's hits |
| SearchControl.SearchGroupsKeepInputOrder | src/components/map/search-control.tsx:41-65 | each group is the matching records of its list, in input order, tagged |
| SearchControl.AllWhitespaceToLower | src/components/map/search-control.tsx:33-38 | lowercasing does not change whether a term is blank |
| SearchControl.SearchCaseInsensitive | src/components/map/search-control.tsx:38-64 | searching the lowercased term gives the same results as the term itself |
| SearchControl.UsuMatches | src/components/map/search-control.tsx:43 | campus "USU" matches "usu" but not " usu" |
| SearchControl.SurroundingSpacesMatter | src/components/map/search-control.tsx:33-38 | the trim only decides whether to search: "usu" finds campus "USU", " usu" finds nothing |
| SearchControl.RouteHighlightIsSwappedLine | src/components/map/search-control.tsx:105-128 | a non-empty LineString route is highlighted along its whole line, which swaps back to the stored coordinates, in its own colour or the default blue |
| SearchControl.SearchBox.constructor | src/components/map/search-control.tsx:20-22 | the term is empty, there are no results and the box is not searching |
| SearchControl.SearchBox.SetSearchTerm | src/components/map/search-control.tsx:185 | only the term changes |
| SearchControl.SearchBox.HandleSearch | src/components/map/search-control.tsx:32-69 | the stored results are `Search(data, term)`; a non-blank term sets `isSearching`, a blank one leaves it alone |
| SearchControl.SearchBox.GoToLocation | src/components/map/search-control.tsx:79-175 | highlights are cleared with no pending timer, the result list is empty and `isSearching` is false |
| SearchControl.HighlightSelection | src/components/map/search-control.tsx:84-169 | the timer body leaves the highlight `SelectionHighlight(item)` with a fresh armed timer, or changes nothing when nothing is highlighted |
| SearchControl.HighlightPaths | src/components/map/search-control.tsx:120-128 | highlighting each path in turn leaves only the last one shown, with one armed timer |
| SearchControl.HighlightAreas | src/components/map/search-control.tsx:163-167 | highlighting each polygon in turn leaves only the last one shown, with one armed timer |
| HighlightUtils.PulseMarker | src/components/map/highlight-utils.ts:37-49 | the marker is at the position in the colour; a colour starting with '#' gives a class name without it; the icon is 24 by 24, anchored at (12, 12) |
| HighlightUtils.Highlighter.constructor | src/components/map/highlight-utils.ts:4-7 | every reference starts null and no timer is pending |
| HighlightUtils.Highlighter.ClearHighlights | src/components/map/highlight-utils.ts:10-30 | marker, line, area and timer are all null and the timer is cancelled; on a cleared state nothing changes |
| HighlightUtils.Highlighter.ArmPulseTimer | src/components/map/highlight-utils.ts:52-54 | a new timer with a fresh id is pending; the highlight references are kept |
| HighlightUtils.Highlighter.HighlightPoint | src/components/map/highlight-utils.ts:33-55 | only the marker is set; the earlier timer is cancelled and exactly one new timer is armed |
| HighlightUtils.Highlighter.HighlightPolyline | src/components/map/highlight-utils.ts:58-75 | only the line is set; the earlier timer is cancelled and exactly one new timer is armed |
| HighlightUtils.Highlighter.HighlightPolygon | src/components/map/highlight-utils.ts:78-95 | only the area is set; the earlier timer is cancelled and exactly one new timer is armed |
| HighlightUtils.Highlighter.TimerFires | src/components/map/highlight-utils.ts:52-54 | an armed timer returns the state to all-null; a cancelled one changes nothing; at most one highlight is shown throughout |
| KecamatanByRoute.MissingIdIsBadRequest | src/app/api/kecamatan-by-route/route.ts:62-64 | the answer is 400 "Route ID is required" exactly when the id is absent or empty |
| KecamatanByRoute.GetOutcomes | src/app/api/kecamatan-by-route/route.ts:73-87 | a non-empty id gets 404 "Route not found" exactly when `parseInt` finds no mock route, and otherwise 200 |
| KecamatanByRoute.FoundRouteFacts | src/app/api/kecamatan-by-route/route.ts:76-87 | a 200 body holds the mock route with the parsed id at an index before which no route has that id, and exactly the mock districts it lists, as the ordered list Medan Baru, Medan Selayang, Medan Kota restricted to its ids |
| KecamatanByRoute.EveryRouteIsFound | src/app/api/kecamatan-by-route/route.ts:73-76 | every mock route is found by its id written in decimal |
| KecamatanByRoute.MockRouteDistricts | src/app/api/kecamatan-by-route/route.ts:4-56 | route 1 yields Medan Baru and Medan Selayang; route 2 yields Medan Baru and Medan Kota |
| KecamatanByRoute.DistrictsOfRoute | src/app/api/kecamatan-by-route/route.ts:82 | the filter over the three mock districts keeps each one that the route lists, in order |
| KecamatanByRoute.FindMockRoute | src/app/api/kecamatan-by-route/route.ts:76 | ids 1 and 2 find the two mock routes; any other id finds none |
| KecamatanByRoute.ParseDecimalPrefix | src/app/api/kecamatan-by-route/route.ts:73 | `parseInt("1abc")` is 1 |
| KecamatanByRoute.ParseHex | src/app/api/kecamatan-by-route/route.ts:73 | `parseInt("0x2")` is 2 |
| KecamatanByRoute.ParseNothing | src/app/api/kecamatan-by-route/route.ts:73 | `parseInt("abc")` is NaN |
| KecamatanByRoute.RouteOneExample | src/app/api/kecamatan-by-route/route.ts:73-87 | "1" gets 200 with route 1 and its two districts |
| KecamatanByRoute.DigitPrefixExample | src/app/api/kecamatan-by-route/route.ts:73-76 | "1abc" finds route 1 |
| KecamatanByRoute.HexExample | src/app/api/kecamatan-by-route/route.ts:73-76 | "0x2" finds route 2 |
| KecamatanByRoute.NotFoundExamples | src/app/api/kecamatan-by-route/route.ts:77-79 | "abc" and "3" both get 404 "Route not found" |
| Text.ParseIntOfIntToString | src/app/api/kecamatan-by-route/route.ts:73 | `parseInt` of a number written in decimal is that number |
| MapPage.AllVisible | src/app/map/page.tsx:51-54 | the keys are exactly the loaded ids, all mapped to true |
| MapPage.BuildInitialVisibility | src/app/map/page.tsx:51-54 | the `forEach` builds `AllVisible(rows)` |
| MapPage.Recolored | src/app/map/page.tsx:125-129 | recolouring keeps the list length |
| MapPage.WithoutKecamatanFacts | src/app/map/page.tsx:113 | every district left is one of the list without the id; every district without the id is kept; the id set loses exactly that id; no match leaves the list as it was |
| MapPage.WithoutKecamatanKeepsOrder | src/app/map/page.tsx:113 | deleting from a concatenation is deleting from each part, in order, and a single district is kept iff its id differs, so the others keep their order |
| MapPage.WithoutKecamatanIdempotent | src/app/map/page.tsx:113 | deleting twice is deleting once |
| MapPage.RecoloredFacts | src/app/map/page.tsx:125-129 | length, order and ids are kept; districts with the id get the new colour and keep their other fields; the others are unchanged |
| MapPage.RecoloredIdempotent | src/app/map/page.tsx:125-129 | recolouring twice with one colour is recolouring once |
| MapPage.DeleteAfterRecolor | src/app/map/page.tsx:112-129 | deleting a district after recolouring it gives the same list as deleting it |
| MapPage.Page.constructor | src/app/map/page.tsx:26-38 | the whole initial state: all layers shown, nothing selected, no districts, no toasts, not on the client |
| MapPage.Page.Mount | src/app/map/page.tsx:40-42 | `isClient` becomes true; every other slot keeps its value |
| MapPage.Page.Notify | src/app/map/page.tsx:56-68 | a toast is appended only on the client; every other slot keeps its value |
| MapPage.Page.LoadKecamatan | src/app/map/page.tsx:44-74 | a good response replaces the list and shows every district; a bad status or a failed fetch changes only the toasts, adding the matching error toast on the client; every other slot keeps its value |
| MapPage.Page.HandleStartLocationSelection | src/app/map/page.tsx:76-84 | selection mode is on, the start location is null, and the info toast is shown on the client; every other slot keeps its value |
| MapPage.Page.HandleMapClick | src/app/map/page.tsx:86-96 | while selecting, the click becomes the start location, selection ends and a toast is shown on the client, all else kept; otherwise the state is unchanged |
| MapPage.Page.SelectCampus | src/app/map/page.tsx:168 | only the selected campus changes; every other slot keeps its value |
| MapPage.Page.ResetRouteSelection | src/app/map/page.tsx:98-103 | start location, selected campus and nearest campus are null, and nearest stations are empty; every other slot keeps its value |
| MapPage.Page.HandleToggleKecamatanVisibility | src/app/map/page.tsx:105-110 | only the visibility entry for the id is set; all other entries and every other slot keep their values |
| MapPage.Page.HandleDeleteKecamatan | src/app/map/page.tsx:112-122 | districts with the id are removed and only that key leaves the visibility record; visibility stays in step with the data; a success toast on the client; every other slot keeps its value |
| MapPage.Page.HandleChangeKecamatanColor | src/app/map/page.tsx:124-133 | the list is recoloured; a success toast on the client; every other slot, visibility included, keeps its value |
| MapSidebar.BuildInitialColors | src/components/map/map-sidebar.tsx:102-108 | the `forEach` builds `InitialColors` |
| MapSidebar.InitialColorsFacts | src/components/map/map-sidebar.tsx:103-106 | the keys are exactly the district ids; each id maps to the `warna` of its last district, or "#6b7280" when that is empty |
| MapSidebar.ColorChangeCalls | src/components/map/map-sidebar.tsx:114-122 | the calls are made exactly for the record's ids that have a district whose `warna` differs, with the record's colour, in ascending id order |
| MapSidebar.ColorChangeCallsUnique | src/components/map/map-sidebar.tsx:114-122 | the list of calls is determined by the record and the districts |
| MapSidebar.VisitLeast | src/components/map/map-sidebar.tsx:115-120 | visiting the least remaining entry keeps the loop's state |
| MapSidebar.LeastId | src/components/map/map-sidebar.tsx:115 | entries are visited from the least id up |
| MapSidebar.AscendingSameElements | src/components/map/map-sidebar.tsx:115 | two ascending call lists with the same elements are equal |
| MapSidebar.FindAfterRecolor | src/components/map/map-sidebar.tsx:114-122 | recolouring changes the district found for an id only when the ids agree |
| MapSidebar.UntouchedByCalls | src/components/map/map-sidebar.tsx:114-122 | calls for other ids leave a district as it was |
| MapSidebar.SettledByCalls | src/components/map/map-sidebar.tsx:114-122 | after the calls, the district with a called id has the called colour |
| MapSidebar.ColorCallsSettle | src/components/map/map-sidebar.tsx:114-122 | once the page has applied the calls, rerunning the effect on the same record calls nothing |
| MapSidebar.KecamatanByIdDistinct | src/components/map/map-sidebar.tsx:117 | with distinct ids, the lookup finds the district itself |
| MapSidebar.UneditedColorsCallUncoloured | src/components/map/map-sidebar.tsx:102-122 | before any edit, with distinct ids, a district gets a call iff its `warna` is empty, and the call sets "#6b7280" |
| MapSidebar.Sidebar.constructor | src/components/map/map-sidebar.tsx:80-89 | the whole initial state: empty record and lists, no selection, nothing loading, no toasts, not on the client |
| MapSidebar.Sidebar.Mount | src/components/map/map-sidebar.tsx:97-99 | `isClient` becomes true; every other slot keeps its value |
| MapSidebar.Sidebar.SyncColors | src/components/map/map-sidebar.tsx:102-108 | the colour record is rebuilt from the district list; every other slot keeps its value |
| MapSidebar.Sidebar.HandleColorChange | src/components/map/map-sidebar.tsx:125-130 | only the colour entry for the id changes; every other entry and slot keeps its value |
| MapSidebar.Sidebar.HandleResetLocation | src/components/map/map-sidebar.tsx:175-180 | the page's route selection is reset and nothing else of the page changes; both nearby lists are empty and the reset toast is added; every other sidebar slot keeps its value |
| MapSidebar.Sidebar.HandleKecamatanSelect | src/components/map/map-sidebar.tsx:182-191 | off the client nothing changes; otherwise the selection is set, and "" clears the station list while any other choice sets its loading flag; every other slot keeps its value |
| MapSidebar.Sidebar.HandleRouteSelect | src/components/map/map-sidebar.tsx:209-218 | off the client nothing changes; otherwise the selection is set, and "" clears the district list while any other choice sets its loading flag; every other slot keeps its value |
| MarkerCluster.ClusterSize | src/components/map/marker-cluster.ts:11-14 | "large" iff the count is over 100, "medium" iff it is 11 to 100, "small" iff it is at most 10 |
| MarkerCluster.ClusterColor | src/components/map/marker-cluster.ts:16-30 | campus, facility and station exactly give emerald, purple and amber; blue iff the type is none of them |
| MarkerCluster.ClassNameParts | src/components/map/marker-cluster.ts:34 | the class names contain `marker-cluster-<size>` and `bg-<color>-100` |
| MarkerCluster.IconHtmlShowsCount | src/components/map/marker-cluster.ts:36 | the html contains the count |
| MarkerCluster.ClusterIconShape | src/components/map/marker-cluster.ts:33-37 | every icon is 40×40; its class names name its size and colour; its html shows the count |
| MarkerCluster.GroupForFacts | src/components/map/marker-cluster.ts:44-51 | a group has the given radius and its own type's icon function, loads in chunks, spiderfies, hides coverage and zooms on click |
| MarkerCluster.ClusterGroupsConfig | src/components/map/marker-cluster.ts:42-71 | radii are campus 50, facility 40, station 60; each group's icons carry its own colour; all share the same flags |
| MapIcons.StationIconByType | src/components/map/map-icons.ts:48-54 | halte, stasiun and terminal (in any case) give exactly the bus-stop, train and angkot icons; every other type gives the default icon |
| MapIcons.StationIconIgnoresCase | src/components/map/map-icons.ts:49 | lowercasing a type first does not change its icon |
| MapIcons.UpperCaseHalte | src/components/map/map-icons.ts:49-50 | "HALTE" gets the bus-stop icon |

## Left out

- Haversine `calculateDistance`: floating-point trigonometry. The distance is an uninterpreted parameter, and no symmetry or value is claimed for it.
- Floating point: coordinates, distances and durations are reals. Rounding, NaN and infinity are not modelled. `minDistance = +Infinity` is modelled as "no best yet", which every distance beats. This differs from the float behaviour only when a distance is itself +Infinity or NaN.
- `toLowerCase` covers ASCII letters only. For `getStationIcon` this loses nothing: the only non-ASCII character that lowercases to an ASCII letter is the Kelvin sign, which becomes "k", and none of "halte", "stasiun" or "terminal" contains a "k".
- `parseInt` is modelled exactly for what the endpoint can get:
  - leading whitespace, an optional sign and a "0x" prefix;
  - the longest digit prefix, and NaN.
  It does not model float precision for numbers beyond 2^53.
- MapSidebar.ColorChangeCalls: entries are visited in ascending id order. That is `Object.entries`' order for array-index keys. Negative district ids, which `Object.entries` would visit in insertion order, are not modelled.
- Timing: the debounce delays, the one-second highlight delay and the five-second pulse timer are not scheduled. Only what a timer does when it fires is modelled (`Highlighter.TimerFires`, `SearchControl.HighlightSelection`).
- Leaflet rendering and DOM: markers, `flyTo` and `flyToBounds`, bounds, styles, `addMapStyles` and the html of the pulse icon. A highlight is modelled by the position or paths and colour it shows.
- The async parts of the sidebar and page are not modelled:
  - the fetch bodies of `handleKecamatanSelect` and `handleRouteSelect` after their first `await`;
  - `findNearbyLocations`, `handleFindCampusRoutes` and the other fetch handlers;
  - `fetchMapData`.
  Only the synchronous prefix of each is modelled. After the fetch, the route branch reads `data.route.name`, while the endpoint's route record names its field `nama`; this is outside the model.
- DB-backed endpoints (nearest campus, nearest station, nearest route, stations by district, campus, facility and station lists) are not modelled. Their work is SQL run by PostGIS.
- `nearest-route-display.tsx` is not part of this model. It matches well-known text with regular expressions and `parseFloat`.
- The endpoint's 500 branch is not modelled: nothing in the lookup over the constant arrays can throw.
- RoutingService.PlannedRoute: the first route with the nearest point's id may not be a LineString. That only happens with duplicate route ids. The code then slices the wrong geometry's coordinates; the model returns `None` instead.
- RoutingService.RoutingCampus: `findRoute` takes `campuses: any[]` and looks them up by `id`. The model gives that argument its own record with `id`, `nama` and `geom` rather than `CampusData`, whose key is `id_kampus`.
- The default colour arguments of `highlightPoint`, `highlightPolyline` and `highlightPolygon` are not modelled as defaults: every caller passes a colour. The line and area defaults appear only as the fallbacks of the callers' `warna ||` expressions.
- Toast durations and toast styling are not modelled. A toast is its kind, message and description.
- The layer toggles (`showCampuses` and the like) are modelled only as page fields. Their setters are not modelled: they are plain assignments.
