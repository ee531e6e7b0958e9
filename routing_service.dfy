/**
 * The client-side route finder (src/components/map/routing-service.ts): a brute-force
 * search for the route vertex nearest to a location, and a single-route path between
 * the vertices nearest to a start location and to a campus.
 *
 * `calculateDistance` (haversine, in km) is a parameter `dist` taking
 * (lat1, lon1, lat2, lon2); nothing is assumed about it.
 */
module RoutingService {
  import opened Wrappers
  import opened Seqs
  import opened MapTypes

  type DistanceFn = (real, real, real, real) -> real

  /** What `findNearestRoutePoint` returns: the route id, the vertex as [lat, lng],
      its distance and its index in the route's coordinates. */
  datatype NearestPoint = NearestPoint(routeId: int, point: Pair, distance: real, index: nat)

  /** The vertices the search visits in a route: a `LineString`'s coordinates; a route
      with any other geometry type is skipped. */
  function ScannedCoordinates(route: RouteData): seq<Pair> {
    if route.geom.LineString? then route.geom.coordinates else []
  }

  /** Distance from `location` ([lat, lng]) to a GeoJSON vertex ([lng, lat]), swapped first. */
  function VertexDistance(location: Pair, coord: Pair, dist: DistanceFn): real {
    var point := Swap(coord);
    dist(location.0, location.1, point.0, point.1)
  }

  /** One step of the scan. No best so far stands for `minDistance = +Infinity`, which
      every distance beats; otherwise the vertex wins only if it is strictly closer. */
  function Consider(best: Option<NearestPoint>, location: Pair, routeId: int, coord: Pair, index: nat, dist: DistanceFn): Option<NearestPoint> {
    var d := VertexDistance(location, coord, dist);
    if best.None? || d < best.value.distance then Some(NearestPoint(routeId, Swap(coord), d, index)) else best
  }

  /** The scan state after visiting `coords` (of route `routeId`) in order, starting from `best`. */
  function ScanCoordinates(best: Option<NearestPoint>, location: Pair, routeId: int, coords: seq<Pair>, dist: DistanceFn): Option<NearestPoint>
    decreases |coords|
  {
    if coords == [] then best
    else
      var n := |coords| - 1;
      Consider(ScanCoordinates(best, location, routeId, coords[..n], dist), location, routeId, coords[n], n, dist)
  }

  /** The value of `findNearestRoutePoint(location, routes)`: the scan over every route in order. */
  function NearestRoutePoint(location: Pair, routes: seq<RouteData>, dist: DistanceFn): Option<NearestPoint>
    decreases |routes|
  {
    if routes == [] then None
    else
      var last := routes[|routes| - 1];
      ScanCoordinates(NearestRoutePoint(location, routes[..|routes| - 1], dist), location, last.id_rute, ScannedCoordinates(last), dist)
  }

  /** The nearest point the four loop variables describe (`nearestPoint`, `minDistance`,
      `nearestRouteId`, `nearestPointIndex`); `nearestPoint == null` means none yet. */
  function Current(nearestPoint: Option<Pair>, minDistance: real, nearestRouteId: int, nearestPointIndex: int): Option<NearestPoint> {
    if nearestPoint.None? || nearestPointIndex < 0 then None
    else Some(NearestPoint(nearestRouteId, nearestPoint.value, minDistance, nearestPointIndex))
  }

  /** `findNearestRoutePoint`: the nested `forEach` scan with its four `let` variables. */
  method FindNearestRoutePoint(location: Pair, routes: seq<RouteData>, dist: DistanceFn) returns (r: Option<NearestPoint>)
    ensures r == NearestRoutePoint(location, routes, dist)
  {
    var nearestPoint: Option<Pair> := None;
    var minDistance: real := 0.0;
    var nearestRouteId := -1;
    var nearestPointIndex := -1;
    var k := 0;
    while k < |routes|
      invariant 0 <= k <= |routes|
      invariant nearestPoint.Some? ==> nearestPointIndex >= 0
      invariant Current(nearestPoint, minDistance, nearestRouteId, nearestPointIndex) == NearestRoutePoint(location, routes[..k], dist)
    {
      var route := routes[k];
      ghost var before := NearestRoutePoint(location, routes[..k], dist);
      if route.geom.LineString? {
        var coordinates := route.geom.coordinates;
        var index := 0;
        while index < |coordinates|
          invariant 0 <= index <= |coordinates|
          invariant nearestPoint.Some? ==> nearestPointIndex >= 0
          invariant Current(nearestPoint, minDistance, nearestRouteId, nearestPointIndex)
                    == ScanCoordinates(before, location, route.id_rute, coordinates[..index], dist)
        {
          var coord := coordinates[index];
          var point := Swap(coord);
          var distance := dist(location.0, location.1, point.0, point.1);
          if nearestPoint.None? || distance < minDistance {
            minDistance := distance;
            nearestPoint := Some(point);
            nearestRouteId := route.id_rute;
            nearestPointIndex := index;
          }
          assert coordinates[..index + 1][..index] == coordinates[..index];
          index := index + 1;
        }
        assert coordinates[..index] == coordinates;
      }
      assert routes[..k + 1][..k] == routes[..k];
      k := k + 1;
    }
    assert routes[..k] == routes;
    if nearestPoint.Some? {
      r := Some(NearestPoint(nearestRouteId, nearestPoint.value, minDistance, nearestPointIndex));
    } else {
      r := None;
    }
  }

  // ---------------------------------------------------------------------------
  // What the scan computes.

  /** Vertex `j` of route `k` is one the search visits. */
  predicate IsVertex(routes: seq<RouteData>, k: int, j: int) {
    0 <= k < |routes| && 0 <= j < |ScannedCoordinates(routes[k])|
  }

  /** Distance from `location` to vertex `j` of route `k`. */
  function DistanceTo(location: Pair, routes: seq<RouteData>, k: int, j: int, dist: DistanceFn): real
    requires IsVertex(routes, k, j)
  {
    VertexDistance(location, ScannedCoordinates(routes[k])[j], dist)
  }

  /** (k', j') comes before (k, j) in the scan: an earlier route, or an earlier vertex of the same route. */
  predicate Before(k': int, j': int, k: int, j: int) {
    k' < k || (k' == k && j' < j)
  }

  /** Within one route: the scan keeps `best` (when no vertex is strictly closer) or ends
      at a vertex `j` that beat `best`, that no later vertex beats and that every earlier
      vertex of the route is strictly farther than. `j == -1` stands for "kept `best`". */
  lemma {:induction false} ScanCoordinatesFacts(best: Option<NearestPoint>, location: Pair, routeId: int, coords: seq<Pair>, dist: DistanceFn)
    returns (j: int)
    ensures var res := ScanCoordinates(best, location, routeId, coords, dist);
      && (res.None? <==> best.None? && coords == [])
      && (res.Some? ==> forall i :: 0 <= i < |coords| ==> res.value.distance <= VertexDistance(location, coords[i], dist))
      && (res.Some? && best.Some? ==> res.value.distance <= best.value.distance)
      && -1 <= j < |coords|
      && (j == -1 ==> res == best)
      && (j >= 0 ==> && res == Some(NearestPoint(routeId, Swap(coords[j]), VertexDistance(location, coords[j], dist), j))
                     && (best.Some? ==> VertexDistance(location, coords[j], dist) < best.value.distance)
                     && forall i :: 0 <= i < j ==> VertexDistance(location, coords[i], dist) > VertexDistance(location, coords[j], dist))
  {
    if coords == [] {
      j := -1;
    } else {
      var n := |coords| - 1;
      var prefix := coords[..n];
      var jp := ScanCoordinatesFacts(best, location, routeId, prefix, dist);
      var prev := ScanCoordinates(best, location, routeId, prefix, dist);
      var d := VertexDistance(location, coords[n], dist);
      assert forall i :: 0 <= i < n ==> prefix[i] == coords[i];
      if prev.None? || d < prev.value.distance {
        j := n;
      } else {
        j := jp;
      }
    }
  }

  /** `findNearestRoutePoint` returns null exactly when no `LineString` route has a vertex
      (no routes at all, only other geometry types, or only empty coordinate lists). */
  lemma {:induction false} NearestRoutePointNone(location: Pair, routes: seq<RouteData>, dist: DistanceFn)
    ensures NearestRoutePoint(location, routes, dist).None? <==> forall k :: 0 <= k < |routes| ==> ScannedCoordinates(routes[k]) == []
  {
    if routes != [] {
      var n := |routes| - 1;
      NearestRoutePointNone(location, routes[..n], dist);
      var _ := ScanCoordinatesFacts(NearestRoutePoint(location, routes[..n], dist), location, routes[n].id_rute, ScannedCoordinates(routes[n]), dist);
      assert forall k :: 0 <= k < n ==> routes[..n][k] == routes[k];
    }
  }

  /** The returned distance is at most the distance to every vertex of every `LineString` route. */
  lemma {:induction false} NearestRoutePointMinimal(location: Pair, routes: seq<RouteData>, dist: DistanceFn)
    ensures var p := NearestRoutePoint(location, routes, dist);
      p.Some? ==> forall k, j :: IsVertex(routes, k, j) ==> p.value.distance <= DistanceTo(location, routes, k, j, dist)
  {
    if routes != [] {
      var n := |routes| - 1;
      var prev := NearestRoutePoint(location, routes[..n], dist);
      var p := NearestRoutePoint(location, routes, dist);
      NearestRoutePointMinimal(location, routes[..n], dist);
      NearestRoutePointNone(location, routes[..n], dist);
      var _ := ScanCoordinatesFacts(prev, location, routes[n].id_rute, ScannedCoordinates(routes[n]), dist);
      if p.Some? {
        forall k, j | IsVertex(routes, k, j)
          ensures p.value.distance <= DistanceTo(location, routes, k, j, dist)
        {
          if k < n {
            assert routes[..n][k] == routes[k];
            assert IsVertex(routes[..n], k, j);
            assert DistanceTo(location, routes, k, j, dist) == DistanceTo(location, routes[..n], k, j, dist);
          }
        }
      }
    }
  }

  /** The result is vertex `index` of a `LineString` route `k` with id `routeId`, swapped to
      [lat, lng], at its own distance; and every vertex visited before it is strictly
      farther, so ties go to the first minimal vertex in route order, then vertex order. */
  lemma {:induction false} NearestRoutePointFirst(location: Pair, routes: seq<RouteData>, dist: DistanceFn)
    returns (k: nat)
    requires NearestRoutePoint(location, routes, dist).Some?
    ensures var p := NearestRoutePoint(location, routes, dist).value;
      && IsVertex(routes, k, p.index)
      && routes[k].geom.LineString?
      && p.routeId == routes[k].id_rute
      && p.point == Swap(routes[k].geom.coordinates[p.index])
      && p.distance == DistanceTo(location, routes, k, p.index, dist)
      && forall k', j' :: IsVertex(routes, k', j') && Before(k', j', k, p.index) ==> DistanceTo(location, routes, k', j', dist) > p.distance
  {
    var n := |routes| - 1;
    var prev := NearestRoutePoint(location, routes[..n], dist);
    var cs := ScannedCoordinates(routes[n]);
    var j := ScanCoordinatesFacts(prev, location, routes[n].id_rute, cs, dist);
    assert forall k :: 0 <= k < n ==> routes[..n][k] == routes[k];
    assert forall k', j' :: IsVertex(routes, k', j') && k' < n ==> IsVertex(routes[..n], k', j');
    if j == -1 {
      k := NearestRoutePointFirst(location, routes[..n], dist);
    } else {
      k := n;
      NearestRoutePointMinimal(location, routes[..n], dist);
      NearestRoutePointNone(location, routes[..n], dist);
    }
  }

  // ---------------------------------------------------------------------------
  // findRoute

  /** An entry of `findRoute`'s `campuses` argument (typed `any[]`): it is looked up by
      `id`, located by `geom.coordinates` ([lng, lat]) and named by `nama`. */
  datatype RoutingCampus = RoutingCampus(id: int, nama: string, geom: PointGeometry)

  /** `RouteSegment`; `segmentType` is the source's `type` field. */
  datatype RouteSegment = RouteSegment(
    id: int, name: string, color: string, segmentType: string,
    path: seq<Pair>, distance: real, duration: real)

  datatype CompleteRoute = CompleteRoute(
    segments: seq<RouteSegment>, totalDistance: real, totalDuration: real,
    startLocation: Pair, endLocation: Pair, campusId: int, campusName: string)

  /** Colour used for a segment whose route has an empty `warna`. */
  const DefaultRouteColor := "#3b82f6"

  /** Nominal speed of the duration estimate, in km/h. */
  const AverageSpeed: real := 30.0

  function Min(a: int, b: int): int { if a <= b then a else b }
  function Max(a: int, b: int): int { if a <= b then b else a }

  /** `Array.prototype.slice(start, end)` for non-negative arguments: both ends are
      clamped to the length, and an empty range gives []. */
  function JsSlice<T>(s: seq<T>, start: nat, end: nat): (r: seq<T>)
    ensures start <= end <= |s| ==> r == s[start..end]
    ensures |s| <= start || end <= start ==> r == []
  {
    var e := if end <= |s| then end else |s|;
    if start < e then s[start..e] else []
  }

  /** The path between vertices `i` and `j` of `coords`: `coords.slice(min, max + 1)` swapped to [lat, lng]. */
  function SegmentPath(coords: seq<Pair>, i: nat, j: nat): seq<Pair> {
    SwapAll(JsSlice(coords, Min(i, j), Max(i, j) + 1))
  }

  /** For indices inside the route, the path holds `|i - j| + 1` vertices, from vertex
      `min(i, j)` to vertex `max(i, j)` in route order, whichever of `i` and `j` is larger. */
  lemma SegmentPathShape(coords: seq<Pair>, i: nat, j: nat)
    requires i < |coords| && j < |coords|
    ensures var path := SegmentPath(coords, i, j);
      && |path| == Max(i, j) - Min(i, j) + 1
      && path[0] == Swap(coords[Min(i, j)])
      && path[|path| - 1] == Swap(coords[Max(i, j)])
      && (forall m :: 0 <= m < |path| ==> path[m] == Swap(coords[Min(i, j) + m]))
      && path == SegmentPath(coords, j, i)
  {
  }

  /** Distance of one leg between consecutive [lat, lng] vertices. */
  function Leg(a: Pair, b: Pair, dist: DistanceFn): real {
    dist(a.0, a.1, b.0, b.1)
  }

  /** The distance the accumulating loop computes: the legs of `path` added up from the
      first one on; a path of fewer than two vertices has length 0. */
  function PathLength(path: seq<Pair>, dist: DistanceFn): real
    decreases |path|
  {
    if |path| < 2 then 0.0
    else PathLength(path[..|path| - 1], dist) + Leg(path[|path| - 2], path[|path| - 1], dist)
  }

  /** The sum of the distances between consecutive vertices, stated on its own: the first
      leg plus the rest of the path. */
  function SumOfLegs(path: seq<Pair>, dist: DistanceFn): real
    decreases |path|
  {
    if |path| < 2 then 0.0 else Leg(path[0], path[1], dist) + SumOfLegs(path[1..], dist)
  }

  /** The loop's running total is the sum of the distances between consecutive vertices. */
  lemma {:induction false} PathLengthIsSumOfLegs(path: seq<Pair>, dist: DistanceFn)
    ensures PathLength(path, dist) == SumOfLegs(path, dist)
    decreases |path|
  {
    var n := |path|;
    if n >= 3 {
      PathLengthIsSumOfLegs(path[1..], dist);
      PathLengthIsSumOfLegs(path[..n - 1], dist);
      PathLengthIsSumOfLegs(path[1..n - 1], dist);
      assert path[1..][..n - 2] == path[1..n - 1];
      assert path[..n - 1][1..] == path[1..n - 1];
    } else if n == 2 {
      assert path[1..] == [path[1]];
      assert path[..1] == [path[0]];
    }
  }

  /** Duration in minutes of `distance` km at the nominal speed: `(distance / 30) * 60`. */
  function Duration(distance: real): real {
    (distance / AverageSpeed) * 60.0
  }

  /** The campus `findRoute` looks for: the first with `id === campusId`. */
  function FindCampus(campuses: seq<RoutingCampus>, campusId: int): Option<RoutingCampus> {
    Find(campuses, (c: RoutingCampus) => c.id == campusId)
  }

  /** The route `findRoute` slices: the first with `id_rute === routeId`. */
  function FindRouteById(routes: seq<RouteData>, routeId: int): Option<RouteData> {
    Find(routes, (r: RouteData) => r.id_rute == routeId)
  }

  /** The route `findRoute` builds once both nearest points lie on the route with id
      `s.routeId`: the slice between the two indices and its distance and duration. */
  function RouteBetween(startLocation: Pair, campusId: int, campus: RoutingCampus, routes: seq<RouteData>,
                        s: NearestPoint, c: NearestPoint, dist: DistanceFn): Option<CompleteRoute> {
    match FindRouteById(routes, s.routeId)
    case None => None
    case Some(route) =>
      if !route.geom.LineString? then None
      else
        var path := SegmentPath(route.geom.coordinates, s.index, c.index);
        var distance := PathLength(path, dist);
        var segment := RouteSegment(route.id_rute, route.nama, if route.warna == "" then DefaultRouteColor else route.warna,
                                    route.jenis, path, distance, Duration(distance));
        Some(CompleteRoute([segment], distance, Duration(distance), startLocation, Swap(campus.geom.coordinates), campusId, campus.nama))
  }

  /** The value of `findRoute(startLocation, campusId, routes, campuses)`. */
  function PlannedRoute(startLocation: Pair, campusId: int, routes: seq<RouteData>, campuses: seq<RoutingCampus>, dist: DistanceFn): Option<CompleteRoute> {
    match FindCampus(campuses, campusId)
    case None => None
    case Some(campus) =>
      var nearestToStart := NearestRoutePoint(startLocation, routes, dist);
      var nearestToCampus := NearestRoutePoint(Swap(campus.geom.coordinates), routes, dist);
      if nearestToStart.None? || nearestToCampus.None? then None
      else if nearestToStart.value.routeId != nearestToCampus.value.routeId then None
      else RouteBetween(startLocation, campusId, campus, routes, nearestToStart.value, nearestToCampus.value, dist)
  }

  /** The `for` loop of `findRoute` that adds up the legs of the path. */
  method SegmentDistance(pathSegment: seq<Pair>, dist: DistanceFn) returns (segmentDistance: real)
    ensures segmentDistance == PathLength(pathSegment, dist)
  {
    segmentDistance := 0.0;
    var i := 0;
    while i < |pathSegment| - 1
      invariant 0 <= i <= (if |pathSegment| == 0 then 0 else |pathSegment| - 1)
      invariant segmentDistance == PathLength(pathSegment[..(if |pathSegment| == 0 then 0 else i + 1)], dist)
    {
      assert pathSegment[..i + 2][..i + 1] == pathSegment[..i + 1];
      segmentDistance := segmentDistance + dist(pathSegment[i].0, pathSegment[i].1, pathSegment[i + 1].0, pathSegment[i + 1].1);
      i := i + 1;
    }
    assert pathSegment[..(if |pathSegment| == 0 then 0 else i + 1)] == pathSegment;
  }

  /** The same-route branch of `findRoute`: look the route up again, slice it, add up the legs. */
  method BuildRoute(startLocation: Pair, campusId: int, campus: RoutingCampus, routes: seq<RouteData>,
                    nearestToStart: NearestPoint, nearestToCampus: NearestPoint, dist: DistanceFn)
    returns (r: Option<CompleteRoute>)
    ensures r == RouteBetween(startLocation, campusId, campus, routes, nearestToStart, nearestToCampus, dist)
  {
    var route := FindRouteById(routes, nearestToStart.routeId);
    if route.None? || !route.value.geom.LineString? {
      return None;
    }
    var coordinates := route.value.geom.coordinates;
    var startIndex := Min(nearestToStart.index, nearestToCampus.index);
    var endIndex := Max(nearestToStart.index, nearestToCampus.index);
    var pathSegment := SwapAll(JsSlice(coordinates, startIndex, endIndex + 1));
    var segmentDistance := SegmentDistance(pathSegment, dist);
    var segmentDuration := (segmentDistance / 30.0) * 60.0;
    var segment := RouteSegment(route.value.id_rute, route.value.nama,
                                if route.value.warna == "" then DefaultRouteColor else route.value.warna,
                                route.value.jenis, pathSegment, segmentDistance, segmentDuration);
    r := Some(CompleteRoute([segment], segmentDistance, segmentDuration, startLocation,
                            Swap(campus.geom.coordinates), campusId, campus.nama));
  }

  /** `findRoute`: find the campus, search the nearest vertex to both ends, and build the
      route only when both lie on the same route. */
  method FindRoute(startLocation: Pair, campusId: int, routes: seq<RouteData>, campuses: seq<RoutingCampus>, dist: DistanceFn)
    returns (r: Option<CompleteRoute>)
    ensures r == PlannedRoute(startLocation, campusId, routes, campuses, dist)
  {
    var campus := FindCampus(campuses, campusId);
    if campus.None? {
      return None;
    }
    var campusLocation := Swap(campus.value.geom.coordinates);
    var nearestToStart := FindNearestRoutePoint(startLocation, routes, dist);
    var nearestToCampus := FindNearestRoutePoint(campusLocation, routes, dist);
    if nearestToStart.None? || nearestToCampus.None? {
      return None;
    }
    if nearestToStart.value.routeId == nearestToCampus.value.routeId {
      r := BuildRoute(startLocation, campusId, campus.value, routes, nearestToStart.value, nearestToCampus.value, dist);
      return;
    }
    return None;
  }

  // ---------------------------------------------------------------------------
  // What findRoute promises.

  /** The first route with id `routeId` exists and is a `LineString`, so its coordinates can be sliced. */
  predicate SlicedRouteIsLine(routes: seq<RouteData>, routeId: int) {
    FindRouteById(routes, routeId).Some? && FindRouteById(routes, routeId).value.geom.LineString?
  }

  /** `findRoute` returns null exactly when no campus has the id, either search finds no
      vertex, the two nearest vertices carry different route ids, or the first route with
      that id is not a `LineString`. */
  lemma PlannedRouteNone(startLocation: Pair, campusId: int, routes: seq<RouteData>, campuses: seq<RoutingCampus>, dist: DistanceFn)
    ensures PlannedRoute(startLocation, campusId, routes, campuses, dist).None? <==>
      (|| FindCampus(campuses, campusId).None?
       || (var campusLocation := Swap(FindCampus(campuses, campusId).value.geom.coordinates);
           var s := NearestRoutePoint(startLocation, routes, dist);
           var c := NearestRoutePoint(campusLocation, routes, dist);
           || s.None? || c.None?
           || s.value.routeId != c.value.routeId
           || !SlicedRouteIsLine(routes, s.value.routeId)))
  {
    var campus := FindCampus(campuses, campusId);
    if campus.Some? {
      var s := NearestRoutePoint(startLocation, routes, dist);
      if s.Some? {
        var k := NearestRoutePointFirst(startLocation, routes, dist);
        assert routes[k].id_rute == s.value.routeId;
      }
    }
  }

  /** Route ids are distinct, as for rows keyed by `id_rute`. */
  predicate DistinctRouteIds(routes: seq<RouteData>) {
    forall a, b :: 0 <= a < b < |routes| ==> routes[a].id_rute != routes[b].id_rute
  }

  /** On the same route (with distinct route ids): a route is found; it has exactly one
      segment; the path runs over `|i - j| + 1` vertices of the route from `min(i, j)` to
      `max(i, j)`, beginning and ending at the two nearest points; the total distance is
      the segment's, the sum of the legs between consecutive vertices; the total duration
      is the segment's, `distance / 30 * 60`; and the route ends at the campus, swapped
      to [lat, lng]. */
  lemma SameRoutePlan(startLocation: Pair, campusId: int, routes: seq<RouteData>, campuses: seq<RoutingCampus>, dist: DistanceFn)
    requires DistinctRouteIds(routes)
    requires FindCampus(campuses, campusId).Some?
    requires var campusLocation := Swap(FindCampus(campuses, campusId).value.geom.coordinates);
      && NearestRoutePoint(startLocation, routes, dist).Some?
      && NearestRoutePoint(campusLocation, routes, dist).Some?
      && NearestRoutePoint(startLocation, routes, dist).value.routeId == NearestRoutePoint(campusLocation, routes, dist).value.routeId
    ensures var campus := FindCampus(campuses, campusId).value;
      var s := NearestRoutePoint(startLocation, routes, dist).value;
      var c := NearestRoutePoint(Swap(campus.geom.coordinates), routes, dist).value;
      var plan := PlannedRoute(startLocation, campusId, routes, campuses, dist);
      && plan.Some?
      && |plan.value.segments| == 1
      && var segment := plan.value.segments[0];
      && |segment.path| == Max(s.index, c.index) - Min(s.index, c.index) + 1
      && segment.path[0] == (if s.index <= c.index then s.point else c.point)
      && segment.path[|segment.path| - 1] == (if s.index <= c.index then c.point else s.point)
      && segment.id == s.routeId
      && plan.value.totalDistance == segment.distance == SumOfLegs(segment.path, dist)
      && plan.value.totalDuration == segment.duration == segment.distance / 30.0 * 60.0
      && plan.value.startLocation == startLocation
      && plan.value.endLocation == Swap(campus.geom.coordinates)
      && plan.value.campusName == campus.nama
  {
    var campus := FindCampus(campuses, campusId).value;
    var campusLocation := Swap(campus.geom.coordinates);
    var s := NearestRoutePoint(startLocation, routes, dist).value;
    var c := NearestRoutePoint(campusLocation, routes, dist).value;
    var ks := NearestRoutePointFirst(startLocation, routes, dist);
    var kc := NearestRoutePointFirst(campusLocation, routes, dist);
    assert ks == kc;
    var route := FindRouteById(routes, s.routeId);
    assert route == Some(routes[ks]);
    var coords := routes[ks].geom.coordinates;
    SegmentPathShape(coords, s.index, c.index);
    PathLengthIsSumOfLegs(SegmentPath(coords, s.index, c.index), dist);
  }
}
