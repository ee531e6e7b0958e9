/**
 * The search box of src/components/map/search-control.tsx: the case-insensitive
 * substring filter over the five record lists (`handleSearch`), the state it writes, and
 * `goToLocation`, which clears the highlights and the result list and, one second later,
 * highlights the chosen record.
 */
module SearchControl {
  import opened Wrappers
  import opened Seqs
  import opened Text
  import opened MapTypes
  import opened MapUtils
  import opened HighlightUtils

  /** `field.toLowerCase().includes(term)`. */
  predicate FieldMatches(field: string, term: string) {
    Includes(ToLower(field), term)
  }

  predicate CampusMatches(campus: CampusData, term: string) {
    FieldMatches(campus.nama, term) || FieldMatches(campus.alamat, term)
  }

  predicate StationMatches(station: StationData, term: string) {
    FieldMatches(station.nama, term) || FieldMatches(station.tipe, term)
  }

  predicate FacilityMatches(facility: FacilityData, term: string) {
    FieldMatches(facility.nama, term) || FieldMatches(facility.jenis, term)
  }

  predicate RouteMatches(route: RouteData, term: string) {
    FieldMatches(route.nama, term) || FieldMatches(route.jenis, term)
  }

  predicate KecamatanMatches(kecamatan: KecamatanData, term: string) {
    FieldMatches(kecamatan.nama, term)
  }

  /** The filter of the list a result came from, applied to the record inside it. */
  predicate Matches(item: SearchResult, term: string) {
    match item
    case CampusResult(c) => CampusMatches(c, term)
    case StationResult(s) => StationMatches(s, term)
    case FacilityResult(f) => FacilityMatches(f, term)
    case RouteResult(r) => RouteMatches(r, term)
    case KecamatanResult(k) => KecamatanMatches(k, term)
  }

  /** The record inside `item` is an element of the list its type tag names. */
  predicate InSource(data: MapData, item: SearchResult) {
    match item
    case CampusResult(c) => c in data.campusData
    case StationResult(s) => s in data.stationData
    case FacilityResult(f) => f in data.facilityData
    case RouteResult(r) => r in data.routeData
    case KecamatanResult(k) => k in data.kecamatanData
  }

  /** Position of a result's group in the combined list. */
  function Rank(item: SearchResult): nat {
    match item
    case CampusResult(_) => 0
    case StationResult(_) => 1
    case FacilityResult(_) => 2
    case RouteResult(_) => 3
    case KecamatanResult(_) => 4
  }

  /** Each list's hits for a lowercased `term`, tagged with the list's type. */
  function CampusHits(data: MapData, term: string): (r: seq<SearchResult>)
    ensures AllOfRank(r, 0)
    ensures forall i :: 0 <= i < |r| ==> r[i].CampusResult? && r[i].campus in data.campusData && CampusMatches(r[i].campus, term)
  {
    Map(Filter(data.campusData, c => CampusMatches(c, term)), c => CampusResult(c))
  }

  function StationHits(data: MapData, term: string): (r: seq<SearchResult>)
    ensures AllOfRank(r, 1)
    ensures forall i :: 0 <= i < |r| ==> r[i].StationResult? && r[i].station in data.stationData && StationMatches(r[i].station, term)
  {
    Map(Filter(data.stationData, s => StationMatches(s, term)), s => StationResult(s))
  }

  function FacilityHits(data: MapData, term: string): (r: seq<SearchResult>)
    ensures AllOfRank(r, 2)
    ensures forall i :: 0 <= i < |r| ==> r[i].FacilityResult? && r[i].facility in data.facilityData && FacilityMatches(r[i].facility, term)
  {
    Map(Filter(data.facilityData, f => FacilityMatches(f, term)), f => FacilityResult(f))
  }

  function RouteHits(data: MapData, term: string): (r: seq<SearchResult>)
    ensures AllOfRank(r, 3)
    ensures forall i :: 0 <= i < |r| ==> r[i].RouteResult? && r[i].route in data.routeData && RouteMatches(r[i].route, term)
  {
    Map(Filter(data.routeData, r => RouteMatches(r, term)), r => RouteResult(r))
  }

  function KecamatanHits(data: MapData, term: string): (r: seq<SearchResult>)
    ensures AllOfRank(r, 4)
    ensures forall i :: 0 <= i < |r| ==> r[i].KecamatanResult? && r[i].kecamatan in data.kecamatanData && KecamatanMatches(r[i].kecamatan, term)
  {
    Map(Filter(data.kecamatanData, k => KecamatanMatches(k, term)), k => KecamatanResult(k))
  }

  /** The combined list for a lowercased `term`: matching campuses, stations, facilities,
      routes and districts, each group in input order. */
  function Results(data: MapData, term: string): seq<SearchResult> {
    CampusHits(data, term) + StationHits(data, term) + FacilityHits(data, term)
    + RouteHits(data, term) + KecamatanHits(data, term)
  }

  /** What `handleSearch` stores for the input `searchTerm`: nothing for a blank input,
      otherwise the results for the lowercased (untrimmed) input. */
  function Search(data: MapData, searchTerm: string): seq<SearchResult> {
    if Trim(searchTerm) == "" then [] else Results(data, ToLower(searchTerm))
  }

  /** An empty or whitespace-only input gives no results. */
  lemma BlankSearchEmpty(data: MapData, searchTerm: string)
    ensures AllWhitespace(searchTerm) ==> Search(data, searchTerm) == []
  {
    TrimEmptyIff(searchTerm);
  }

  lemma {:induction false} InMapFilter<T>(s: seq<T>, p: T -> bool, tag: T -> SearchResult, x: T)
    requires forall a, b :: tag(a) == tag(b) ==> a == b
    ensures tag(x) in Map(Filter(s, p), tag) <==> x in s && p(x)
  {
    var m := Map(Filter(s, p), tag);
    if tag(x) in m {
      var i :| 0 <= i < |m| && m[i] == tag(x);
      assert Filter(s, p)[i] == x;
    }
    if x in s && p(x) {
      var i :| 0 <= i < |s| && s[i] == x;
      var j :| 0 <= j < |Filter(s, p)| && Filter(s, p)[j] == x;
      assert m[j] == tag(x);
    }
  }

  lemma NotInMap<T>(s: seq<T>, tag: T -> SearchResult, item: SearchResult)
    ensures (forall a :: tag(a) != item) ==> item !in Map(s, tag)
  {
  }

  /** A record is a result iff the input is not blank, the record is in the list its tag
      names, and that list's filter matches it against the lowercased input. */
  lemma SearchMembership(data: MapData, searchTerm: string, item: SearchResult)
    ensures item in Search(data, searchTerm)
        <==> !AllWhitespace(searchTerm) && InSource(data, item) && Matches(item, ToLower(searchTerm))
  {
    TrimEmptyIff(searchTerm);
    if !AllWhitespace(searchTerm) {
      var term := ToLower(searchTerm);
      NotInMap(Filter(data.campusData, c => CampusMatches(c, term)), c => CampusResult(c), item);
      NotInMap(Filter(data.stationData, s => StationMatches(s, term)), s => StationResult(s), item);
      NotInMap(Filter(data.facilityData, f => FacilityMatches(f, term)), f => FacilityResult(f), item);
      NotInMap(Filter(data.routeData, r => RouteMatches(r, term)), r => RouteResult(r), item);
      NotInMap(Filter(data.kecamatanData, k => KecamatanMatches(k, term)), k => KecamatanResult(k), item);
      match item
      case CampusResult(c) =>
        InMapFilter(data.campusData, c => CampusMatches(c, term), c => CampusResult(c), c);
      case StationResult(s) =>
        InMapFilter(data.stationData, s => StationMatches(s, term), s => StationResult(s), s);
      case FacilityResult(f) =>
        InMapFilter(data.facilityData, f => FacilityMatches(f, term), f => FacilityResult(f), f);
      case RouteResult(r) =>
        InMapFilter(data.routeData, r => RouteMatches(r, term), r => RouteResult(r), r);
      case KecamatanResult(k) =>
        InMapFilter(data.kecamatanData, k => KecamatanMatches(k, term), k => KecamatanResult(k), k);
    }
  }

  /** Every result carries the tag of its group: the `type` a result reports is the one
      its rank stands for. */
  lemma TypeFollowsRank(item: SearchResult)
    ensures item.Type() == ["campus", "station", "facility", "route", "kecamatan"][Rank(item)]
  {
  }

  predicate GroupedByRank(r: seq<SearchResult>) {
    forall i, j :: 0 <= i < j < |r| ==> Rank(r[i]) <= Rank(r[j])
  }

  /** Appending a group whose ranks are all `n` to a grouped list whose ranks are at most `n`
      keeps it grouped. */
  lemma AppendGroup(a: seq<SearchResult>, b: seq<SearchResult>, n: nat)
    requires GroupedByRank(a)
    requires forall i :: 0 <= i < |a| ==> Rank(a[i]) <= n
    requires forall i :: 0 <= i < |b| ==> Rank(b[i]) == n
    ensures GroupedByRank(a + b)
    ensures forall i :: 0 <= i < |a + b| ==> Rank((a + b)[i]) <= n
  {
    forall i, j | 0 <= i < j < |a + b|
      ensures Rank((a + b)[i]) <= Rank((a + b)[j])
    {
      if j < |a| {
        assert (a + b)[i] == a[i] && (a + b)[j] == a[j];
      } else if i < |a| {
        assert (a + b)[i] == a[i] && (a + b)[j] == b[j - |a|];
      } else {
        assert (a + b)[i] == b[i - |a|] && (a + b)[j] == b[j - |a|];
      }
    }
  }

  /** Results come in groups: all campuses, then stations, facilities, routes and
      districts. */
  lemma SearchGroupOrder(data: MapData, searchTerm: string)
    ensures GroupedByRank(Search(data, searchTerm))
  {
    if Trim(searchTerm) != "" {
      var term := ToLower(searchTerm);
      var cs, ss, fs, rs, ks := CampusHits(data, term), StationHits(data, term),
        FacilityHits(data, term), RouteHits(data, term), KecamatanHits(data, term);
      AppendGroup([], cs, 0);
      assert [] + cs == cs;
      AppendGroup(cs, ss, 1);
      AppendGroup(cs + ss, fs, 2);
      AppendGroup(cs + ss + fs, rs, 3);
      AppendGroup(cs + ss + fs + rs, ks, 4);
    }
  }

  /** The results of rank `n`, in the order they appear. */
  function Group(r: seq<SearchResult>, n: nat): seq<SearchResult> {
    if r == [] then [] else (if Rank(r[0]) == n then [r[0]] else []) + Group(r[1..], n)
  }

  lemma {:induction false} GroupAppend(a: seq<SearchResult>, b: seq<SearchResult>, n: nat)
    ensures Group(a + b, n) == Group(a, n) + Group(b, n)
  {
    if a == [] {
      assert a + b == b;
    } else {
      assert (a + b)[1..] == a[1..] + b;
      assert (a + b)[0] == a[0];
      GroupAppend(a[1..], b, n);
      assert Group(a + b, n) == (if Rank(a[0]) == n then [a[0]] else []) + Group(a[1..] + b, n);
    }
  }

  predicate AllOfRank(s: seq<SearchResult>, m: nat) {
    forall i :: 0 <= i < |s| ==> Rank(s[i]) == m
  }

  lemma {:induction false} GroupOfConstant(s: seq<SearchResult>, m: nat, n: nat)
    requires AllOfRank(s, m)
    ensures Group(s, n) == if m == n then s else []
  {
    if s != [] {
      assert forall i :: 0 <= i < |s[1..]| ==> s[1..][i] == s[i + 1];
      GroupOfConstant(s[1..], m, n);
    }
  }

  lemma GroupOfFive(a: seq<SearchResult>, b: seq<SearchResult>, c: seq<SearchResult>,
                    d: seq<SearchResult>, e: seq<SearchResult>, n: nat)
    ensures Group(a + b + c + d + e, n) == Group(a, n) + Group(b, n) + Group(c, n) + Group(d, n) + Group(e, n)
  {
    GroupAppend(a + b + c + d, e, n);
    GroupAppend(a + b + c, d, n);
    GroupAppend(a + b, c, n);
    GroupAppend(a, b, n);
  }

  /** The group of rank `n` of the results for a lowercased `term`. */
  lemma GroupOfResults(data: MapData, term: string, n: nat)
    ensures Group(Results(data, term), n) ==
      if n == 0 then CampusHits(data, term) else if n == 1 then StationHits(data, term)
      else if n == 2 then FacilityHits(data, term) else if n == 3 then RouteHits(data, term)
      else if n == 4 then KecamatanHits(data, term) else []
  {
    var cs, ss, fs, rs, ks := CampusHits(data, term), StationHits(data, term),
      FacilityHits(data, term), RouteHits(data, term), KecamatanHits(data, term);
    assert Results(data, term) == cs + ss + fs + rs + ks;
    GroupOfFive(cs, ss, fs, rs, ks, n);
    GroupOfConstant(cs, 0, n);
    GroupOfConstant(ss, 1, n);
    GroupOfConstant(fs, 2, n);
    GroupOfConstant(rs, 3, n);
    GroupOfConstant(ks, 4, n);
    var e: seq<SearchResult> := [];
    if n == 0 {
      assert cs + e + e + e + e == cs;
    } else if n == 1 {
      assert e + ss + e + e + e == ss;
    } else if n == 2 {
      assert e + e + fs + e + e == fs;
    } else if n == 3 {
      assert e + e + e + rs + e == rs;
    } else if n == 4 {
      assert e + e + e + e + ks == ks;
    } else {
      assert e + e + e + e + e == e;
    }
  }

  /** Within each group the input order is kept: the stations among the results are the
      matching stations, in the order of the station list, and so for every group. */
  lemma SearchGroupsKeepInputOrder(data: MapData, searchTerm: string)
    requires !AllWhitespace(searchTerm)
    ensures var r := Search(data, searchTerm); var term := ToLower(searchTerm);
      && Group(r, 0) == Map(Filter(data.campusData, c => CampusMatches(c, term)), c => CampusResult(c))
      && Group(r, 1) == Map(Filter(data.stationData, s => StationMatches(s, term)), s => StationResult(s))
      && Group(r, 2) == Map(Filter(data.facilityData, f => FacilityMatches(f, term)), f => FacilityResult(f))
      && Group(r, 3) == Map(Filter(data.routeData, r => RouteMatches(r, term)), r => RouteResult(r))
      && Group(r, 4) == Map(Filter(data.kecamatanData, k => KecamatanMatches(k, term)), k => KecamatanResult(k))
  {
    TrimEmptyIff(searchTerm);
    var term := ToLower(searchTerm);
    GroupOfResults(data, term, 0);
    GroupOfResults(data, term, 1);
    GroupOfResults(data, term, 2);
    GroupOfResults(data, term, 3);
    GroupOfResults(data, term, 4);
  }

  lemma {:induction false} AllWhitespaceToLower(s: string)
    ensures AllWhitespace(ToLower(s)) <==> AllWhitespace(s)
  {
    forall i | 0 <= i < |s|
      ensures IsJsWhitespace(ToLower(s)[i]) <==> IsJsWhitespace(s[i])
    {
      assert ToLower(s)[i] == LowerChar(s[i]);
    }
  }

  /** Upper and lower case in the input make no difference. */
  lemma SearchCaseInsensitive(data: MapData, searchTerm: string)
    ensures Search(data, ToLower(searchTerm)) == Search(data, searchTerm)
  {
    TrimEmptyIff(searchTerm);
    TrimEmptyIff(ToLower(searchTerm));
    AllWhitespaceToLower(searchTerm);
    ToLowerIdempotent(searchTerm);
  }

  /** The campus of the example below. */
  function Usu(): CampusData {
    CampusData(1, "USU", "Medan", "", 15, 40000, PointGeometry("Point", (98.65, 3.56)))
  }

  lemma UsuMatches()
    ensures CampusMatches(Usu(), "usu") && !CampusMatches(Usu(), " usu")
  {
    assert ToLower("USU") == "usu";
    assert StartsWith("usu", "usu");
    assert ToLower("Medan") == "medan";
    IncludesNeedsFirstChar("usu", " usu");
    IncludesNeedsFirstChar("medan", " usu");
  }

  /** The trim decides only whether to search: surrounding spaces stay in the term. A
      campus named "USU" is found by "usu" but not by " usu". */
  lemma SurroundingSpacesMatter()
    ensures Search(MapData([Usu()], [], [], [], []), "usu") == [CampusResult(Usu())]
    ensures Search(MapData([Usu()], [], [], [], []), " usu") == []
  {
    var data := MapData([Usu()], [], [], [], []);
    UsuMatches();
    assert !AllWhitespace("usu") by { assert !IsJsWhitespace("usu"[0]); }
    assert !AllWhitespace(" usu") by { assert !IsJsWhitespace(" usu"[1]); }
    TrimEmptyIff("usu");
    TrimEmptyIff(" usu");
    assert ToLower("usu") == "usu";
    assert ToLower(" usu") == " usu";
    assert [Usu()][1..] == [];
    assert Filter([Usu()], c => CampusMatches(c, "usu")) == [Usu()];
    assert Filter([Usu()], c => CampusMatches(c, " usu")) == [];
  }

  /** The highlight the one-second timer of `goToLocation` leaves on the map. */
  datatype Highlight =
    | MarkerAt(position: Pair, color: string)
    | LineOver(positions: seq<Pair>, color: string)
    | AreaOver(rings: seq<seq<Pair>>, color: string)

  /** Marker colours: emerald for campuses, purple for facilities, amber for stations. */
  const CampusHighlightColor := "#10b981"
  const FacilityHighlightColor := "#8b5cf6"
  const StationHighlightColor := "#f59e0b"

  /** What is highlighted once the timer has run: a marker at the record's [lat, lng]; for a
      route, the last of its paths (each path is highlighted in turn and replaces the one
      before); for a district, its rings or, for a multipolygon, its last polygon. */
  function SelectionHighlight(item: SearchResult): Option<Highlight> {
    match item
    case CampusResult(c) => Some(MarkerAt(Swap(c.geom.coordinates), CampusHighlightColor))
    case FacilityResult(f) => Some(MarkerAt(Swap(f.geom.coordinates), FacilityHighlightColor))
    case StationResult(s) => Some(MarkerAt(Swap(s.geom.coordinates), StationHighlightColor))
    case RouteResult(r) =>
      var paths := ProcessRouteGeometry(Some(r.geom));
      if |paths| > 0 then Some(LineOver(paths[|paths| - 1], Or(r.warna, PolylineColor))) else None
    case KecamatanResult(k) =>
      match ProcessPolygonGeometry(Some(k.geom))
      case Rings(rings) =>
        if k.geom.Polygon? && |rings| > 0 then Some(AreaOver(rings, Or(k.warna, PolygonColor))) else None
      case Polygons(polygons) =>
        if |polygons| > 0 then Some(AreaOver(polygons[|polygons| - 1], Or(k.warna, PolygonColor))) else None
  }

  /** A route's highlight is its last line in [lat, lng] order; for a `LineString` this is
      the whole line, so swapping it back gives the stored coordinates. */
  lemma RouteHighlightIsSwappedLine(route: RouteData)
    requires route.geom.LineString? && |route.geom.coordinates| > 0
    ensures SelectionHighlight(RouteResult(route)).Some?
    ensures match SelectionHighlight(RouteResult(route))
      case Some(LineOver(positions, color)) =>
        SwapAll(positions) == route.geom.coordinates && color == (if route.warna == "" then "#3b82f6" else route.warna)
      case _ => false
  {
    var paths := ProcessRouteGeometry(Some(route.geom));
    assert paths == [SwapAll(route.geom.coordinates)];
    SwapAllInvolutive(route.geom.coordinates);
  }

  /** The shown state of a highlighter, as a `Highlight`. */
  function Shown(marker: Option<MarkerHighlight>, line: Option<PolylineHighlight>,
                 area: Option<PolygonHighlight>): Option<Highlight>
  {
    if marker.Some? then Some(MarkerAt(marker.value.position, marker.value.color))
    else if line.Some? then Some(LineOver(line.value.positions, line.value.color))
    else if area.Some? then Some(AreaOver(area.value.rings, area.value.color))
    else None
  }

  /** The search box's state. */
  class SearchBox {
    const data: MapData
    var searchTerm: string
    var searchResults: seq<SearchResult>
    var isSearching: bool

    constructor (data: MapData)
      ensures this.data == data && searchTerm == "" && searchResults == [] && !isSearching
    {
      this.data := data;
      searchTerm := "";
      searchResults := [];
      isSearching := false;
    }

    /** The input's `onChange`. */
    method SetSearchTerm(value: string)
      modifies this
      ensures searchTerm == value
      ensures searchResults == old(searchResults) && isSearching == old(isSearching)
    {
      searchTerm := value;
    }

    /** `handleSearch`: a blank input empties the results and leaves `isSearching` alone;
        any other input stores the results for it and sets `isSearching`. */
    method HandleSearch()
      modifies this
      ensures searchResults == Search(data, searchTerm)
      ensures isSearching == (AllWhitespace(searchTerm) ==> old(isSearching))
      ensures searchTerm == old(searchTerm)
    {
      TrimEmptyIff(searchTerm);
      if Trim(searchTerm) == "" {
        searchResults := [];
        return;
      }
      var term := ToLower(searchTerm);
      searchResults := Results(data, term);
      isSearching := true;
    }

    /** `goToLocation`, up to the scheduled highlight: clear the highlights, close the
        result list. */
    method GoToLocation(item: SearchResult, h: Highlighter)
      requires h.Valid()
      modifies this, h
      ensures h.Valid() && h.Cleared() && h.pulseTimer.None?
      ensures !isSearching && searchResults == []
      ensures searchTerm == old(searchTerm)
    {
      h.ClearHighlights();
      isSearching := false;
      searchResults := [];
    }
  }

  /** The body of the one-second timer `goToLocation` schedules: highlight the chosen
      record, one path or polygon after the other. */
  method HighlightSelection(item: SearchResult, h: Highlighter)
    requires h.Valid()
    modifies h
    ensures h.Valid()
    ensures SelectionHighlight(item).None? ==> unchanged(h)
    ensures SelectionHighlight(item).Some? ==>
      Shown(h.highlightedMarker, h.highlightedPolyline, h.highlightedPolygon) == SelectionHighlight(item)
      && h.pulseTimer.Some? && h.armedTimers == {h.pulseTimer.value}
  {
    match item {
      case CampusResult(c) =>
        h.HighlightPoint(Swap(c.geom.coordinates), CampusHighlightColor);
      case FacilityResult(f) =>
        h.HighlightPoint(Swap(f.geom.coordinates), FacilityHighlightColor);
      case StationResult(s) =>
        h.HighlightPoint(Swap(s.geom.coordinates), StationHighlightColor);
      case RouteResult(r) =>
        var paths := ProcessRouteGeometry(Some(r.geom));
        HighlightPaths(paths, Or(r.warna, PolylineColor), h);
      case KecamatanResult(k) =>
        var polygons := ProcessPolygonGeometry(Some(k.geom));
        match polygons {
          case Rings(rings) =>
            if k.geom.Polygon? && |rings| > 0 {
              h.HighlightPolygon(rings, Or(k.warna, PolygonColor));
            }
          case Polygons(ps) =>
            HighlightAreas(ps, Or(k.warna, PolygonColor), h);
        }
    }
  }

  /** `forEach` over the paths, each one highlighted with `color`; the last one stays. */
  method HighlightPaths(paths: seq<seq<Pair>>, color: string, h: Highlighter)
    requires h.Valid()
    modifies h
    ensures h.Valid()
    ensures paths == [] ==> unchanged(h)
    ensures paths != [] ==>
      h.highlightedPolyline == Some(PolylineHighlight(paths[|paths| - 1], color))
      && h.highlightedMarker.None? && h.highlightedPolygon.None?
      && h.pulseTimer.Some? && h.armedTimers == {h.pulseTimer.value}
  {
    var k := 0;
    while k < |paths|
      invariant 0 <= k <= |paths|
      invariant h.Valid()
      invariant k == 0 ==> unchanged(h)
      invariant k > 0 ==>
        h.highlightedPolyline == Some(PolylineHighlight(paths[k - 1], color))
        && h.highlightedMarker.None? && h.highlightedPolygon.None?
        && h.pulseTimer.Some? && h.armedTimers == {h.pulseTimer.value}
    {
      h.HighlightPolyline(paths[k], color);
      k := k + 1;
    }
  }

  /** `forEach` over the polygons of a multipolygon; the last one stays highlighted. */
  method HighlightAreas(polygons: seq<seq<seq<Pair>>>, color: string, h: Highlighter)
    requires h.Valid()
    modifies h
    ensures h.Valid()
    ensures polygons == [] ==> unchanged(h)
    ensures polygons != [] ==>
      h.highlightedPolygon == Some(PolygonHighlight(polygons[|polygons| - 1], color))
      && h.highlightedMarker.None? && h.highlightedPolyline.None?
      && h.pulseTimer.Some? && h.armedTimers == {h.pulseTimer.value}
  {
    var k := 0;
    while k < |polygons|
      invariant 0 <= k <= |polygons|
      invariant h.Valid()
      invariant k == 0 ==> unchanged(h)
      invariant k > 0 ==>
        h.highlightedPolygon == Some(PolygonHighlight(polygons[k - 1], color))
        && h.highlightedMarker.None? && h.highlightedPolyline.None?
        && h.pulseTimer.Some? && h.armedTimers == {h.pulseTimer.value}
    {
      h.HighlightPolygon(polygons[k], color);
      k := k + 1;
    }
  }
}
