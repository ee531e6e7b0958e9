/**
 * The GeoJSON helpers of src/components/map/map-utils.ts: they turn GeoJSON
 * [longitude, latitude] positions into Leaflet [latitude, longitude] pairs and keep
 * the nesting of lines, rings and polygons. `None` is a `null`/`undefined` geometry.
 */
module MapUtils {
  import opened Wrappers
  import opened MapTypes

  /** `getLatLngFromGeoJSON`: the [lat, lng] of a point geometry. */
  function GetLatLngFromGeoJSON(geom: PointGeometry): (r: Pair)
    ensures r.0 == geom.coordinates.1 && r.1 == geom.coordinates.0
  {
    Swap(geom.coordinates)
  }

  /** The [lat, lng] of a point, turned back into GeoJSON order, is the point's own position. */
  lemma GetLatLngRoundTrip(geom: PointGeometry)
    ensures Swap(GetLatLngFromGeoJSON(geom)) == geom.coordinates
  {
  }

  /** Swapping every position of every path. */
  function SwapPaths(paths: seq<seq<Pair>>): (r: seq<seq<Pair>>)
    ensures |r| == |paths|
    ensures forall i :: 0 <= i < |paths| ==> r[i] == SwapAll(paths[i])
  {
    seq(|paths|, i requires 0 <= i < |paths| => SwapAll(paths[i]))
  }

  /** `processRouteGeometry`: one path for a `LineString`, one path per line for a
      `MultiLineString`, and [] for a missing geometry or any other type. */
  function ProcessRouteGeometry(geom: Option<Geometry>): (r: seq<seq<Pair>>)
    ensures geom.None? ==> r == []
    ensures geom.Some? && geom.value.LineString? ==>
      var cs := geom.value.coordinates;
      |r| == 1 && |r[0]| == |cs| && forall k :: 0 <= k < |cs| ==> r[0][k] == Swap(cs[k])
    ensures geom.Some? && geom.value.MultiLineString? ==>
      var lines := geom.value.lines;
      && |r| == |lines|
      && forall i :: 0 <= i < |lines| ==> |r[i]| == |lines[i]| && forall k :: 0 <= k < |lines[i]| ==> r[i][k] == Swap(lines[i][k])
    ensures geom.Some? && !geom.value.LineString? && !geom.value.MultiLineString? ==> r == []
  {
    match geom
    case None => []
    case Some(LineString(coordinates)) => [SwapAll(coordinates)]
    case Some(MultiLineString(lines)) => SwapPaths(lines)
    case Some(_) => []
  }

  /** What `processPolygonGeometry` returns: rings for a `Polygon`, polygons of rings for a
      `MultiPolygon`. Its `[]` for a missing or unrecognised geometry is `Rings([])`. */
  datatype PolygonPaths = Rings(rings: seq<seq<Pair>>) | Polygons(polygons: seq<seq<seq<Pair>>>) {
    /** The array's `length`. */
    function Length(): nat {
      match this
      case Rings(rs) => |rs|
      case Polygons(ps) => |ps|
    }
  }

  /** `processPolygonGeometry`. */
  function ProcessPolygonGeometry(geom: Option<Geometry>): (r: PolygonPaths)
    ensures geom.None? ==> r == Rings([])
    ensures geom.Some? && geom.value.Polygon? ==>
      var rings := geom.value.rings;
      && r.Rings? && |r.rings| == |rings|
      && forall i :: 0 <= i < |rings| ==> |r.rings[i]| == |rings[i]| && forall k :: 0 <= k < |rings[i]| ==> r.rings[i][k] == Swap(rings[i][k])
    ensures geom.Some? && geom.value.MultiPolygon? ==>
      var polygons := geom.value.polygons;
      && r.Polygons? && |r.polygons| == |polygons|
      && forall p :: 0 <= p < |polygons| ==>
           && |r.polygons[p]| == |polygons[p]|
           && forall i :: 0 <= i < |polygons[p]| ==>
                && |r.polygons[p][i]| == |polygons[p][i]|
                && forall k :: 0 <= k < |polygons[p][i]| ==> r.polygons[p][i][k] == Swap(polygons[p][i][k])
    ensures geom.Some? && !geom.value.Polygon? && !geom.value.MultiPolygon? ==> r == Rings([])
  {
    match geom
    case None => Rings([])
    case Some(Polygon(rings)) => Rings(SwapPaths(rings))
    case Some(MultiPolygon(polygons)) =>
      Polygons(seq(|polygons|, p requires 0 <= p < |polygons| => SwapPaths(polygons[p])))
    case Some(_) => Rings([])
  }

  lemma {:induction false} SwapAllInvolutive(path: seq<Pair>)
    ensures SwapAll(SwapAll(path)) == path
  {
    assert forall k :: 0 <= k < |path| ==> SwapAll(SwapAll(path))[k] == path[k];
  }

  lemma {:induction false} SwapPathsInvolutive(paths: seq<seq<Pair>>)
    ensures SwapPaths(SwapPaths(paths)) == paths
  {
    forall i | 0 <= i < |paths| ensures SwapPaths(SwapPaths(paths))[i] == paths[i] {
      SwapAllInvolutive(paths[i]);
    }
  }

  /** Turning the Leaflet paths back into GeoJSON order gives the geometry's coordinates:
      nothing is lost, reordered or regrouped. */
  lemma RouteGeometryRoundTrip(geom: Geometry)
    ensures geom.LineString? ==> SwapPaths(ProcessRouteGeometry(Some(geom))) == [geom.coordinates]
    ensures geom.MultiLineString? ==> SwapPaths(ProcessRouteGeometry(Some(geom))) == geom.lines
  {
    if geom.LineString? {
      SwapAllInvolutive(geom.coordinates);
      assert SwapPaths(ProcessRouteGeometry(Some(geom)))[0] == geom.coordinates;
    } else if geom.MultiLineString? {
      SwapPathsInvolutive(geom.lines);
    }
  }

  /** The same for districts: rings (and polygons of rings) come back unchanged. */
  lemma PolygonGeometryRoundTrip(geom: Geometry)
    ensures geom.Polygon? ==> SwapPaths(ProcessPolygonGeometry(Some(geom)).rings) == geom.rings
    ensures geom.MultiPolygon? ==>
      var ps := ProcessPolygonGeometry(Some(geom)).polygons;
      seq(|ps|, p requires 0 <= p < |ps| => SwapPaths(ps[p])) == geom.polygons
  {
    if geom.Polygon? {
      SwapPathsInvolutive(geom.rings);
    } else if geom.MultiPolygon? {
      var ps := ProcessPolygonGeometry(Some(geom)).polygons;
      forall p | 0 <= p < |ps| ensures SwapPaths(ps[p]) == geom.polygons[p] {
        SwapPathsInvolutive(geom.polygons[p]);
      }
    }
  }
}
