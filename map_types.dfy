/**
 * The records the map works with (src/components/map/types.ts) and the
 * coordinate pair that every geometry is made of.
 */
module MapTypes {

  /** A `[number, number]` pair. GeoJSON stores positions as [longitude, latitude]
      (RFC 7946, section 3.1.1); Leaflet expects [latitude, longitude]. */
  type Pair = (real, real)

  /** `[c[1], c[0]]`: the conversion between the two orders, used by every geometry helper. */
  function Swap(c: Pair): (r: Pair)
    ensures r.0 == c.1 && r.1 == c.0
  {
    (c.1, c.0)
  }

  /** Swapping twice gives back the original pair. */
  lemma SwapInvolutive(c: Pair)
    ensures Swap(Swap(c)) == c
  {
  }

  /** Swap every position of a path. */
  function SwapAll(path: seq<Pair>): (r: seq<Pair>)
    ensures |r| == |path|
    ensures forall k :: 0 <= k < |path| ==> r[k] == Swap(path[k])
  {
    seq(|path|, k requires 0 <= k < |path| => Swap(path[k]))
  }

  /** The `geom` of a point record: a type name and one position. */
  datatype PointGeometry = PointGeometry(typeName: string, coordinates: Pair)

  /** The `geom` of a route or district record, told apart by its GeoJSON `type` member;
      `OtherType` is a geometry whose type is none of the five the map handles. */
  datatype Geometry =
    | Point(position: Pair)
    | LineString(coordinates: seq<Pair>)
    | MultiLineString(lines: seq<seq<Pair>>)
    | Polygon(rings: seq<seq<Pair>>)
    | MultiPolygon(polygons: seq<seq<seq<Pair>>>)
    | OtherType

  datatype CampusData = CampusData(
    id_kampus: int, nama: string, alamat: string, website: string,
    jumlah_fakultas: int, jumlah_mahasiswa: int, geom: PointGeometry)

  datatype FacilityData = FacilityData(
    id_fasilitas: int, id_kampus: int, nama: string, jenis: string, geom: PointGeometry)

  datatype StationData = StationData(id_stasiun: int, nama: string, tipe: string, geom: PointGeometry)

  datatype RouteData = RouteData(
    id_rute: int, nama: string, jenis: string, nomor_angkot: string, warna: string, geom: Geometry)

  /** A district (kecamatan): area in km², population and density per km². */
  datatype KecamatanData = KecamatanData(
    id_kecamatan: int, nama: string, luas: real, penduduk: int, kepadatan: real,
    warna: string, geom: Geometry)

  /** A search hit: the original record together with the name of the list it came from. */
  datatype SearchResult =
    | CampusResult(campus: CampusData)
    | StationResult(station: StationData)
    | FacilityResult(facility: FacilityData)
    | RouteResult(route: RouteData)
    | KecamatanResult(kecamatan: KecamatanData)
  {
    /** The `type` tag added to the record. */
    function Type(): string {
      match this
      case CampusResult(_) => "campus"
      case StationResult(_) => "station"
      case FacilityResult(_) => "facility"
      case RouteResult(_) => "route"
      case KecamatanResult(_) => "kecamatan"
    }
  }

  datatype MapData = MapData(
    campusData: seq<CampusData>, facilityData: seq<FacilityData>, stationData: seq<StationData>,
    routeData: seq<RouteData>, kecamatanData: seq<KecamatanData>)
}
