/**
 * The mock endpoint src/app/api/kecamatan-by-route/route.ts: it validates the `id` query
 * parameter, reads it with `Number.parseInt`, looks the route up in a constant list and
 * answers with the route and the constant districts it passes through.
 */
module KecamatanByRoute {
  import opened Wrappers
  import opened Seqs
  import opened Text

  /** A route of the mock list, with the ids of the districts it passes through. */
  datatype MockRoute = MockRoute(
    id_rute: int, nama: string, kode: string, jenis: string, nomor_angkot: string,
    frekuensi: string, jam_operasi: string, tarif: string, kapasitas: string, warna: string,
    kecamatan_ids: seq<int>)

  /** A district of the mock list: area in km², population, density per km². */
  datatype MockKecamatan = MockKecamatan(id_kecamatan: int, nama: string, luas: real, penduduk: int, kepadatan: int)

  const RouteUsuUnimed := MockRoute(1, "Rute USU - UNIMED", "R1", "Bus Kampus", "", "15 menit",
    "07:00 - 18:00", "Rp 5.000", "40 orang", "#10b981", [1, 2])
  const RouteUsuMedanKota := MockRoute(2, "Rute USU - Medan Kota", "R2", "Angkot", "64", "10 menit",
    "06:00 - 19:00", "Rp 4.000", "12 orang", "#3b82f6", [1, 3])

  const MedanBaru := MockKecamatan(1, "Medan Baru", 5.41, 40000, 7394)
  const MedanSelayang := MockKecamatan(2, "Medan Selayang", 12.81, 107000, 8353)
  const MedanKota := MockKecamatan(3, "Medan Kota", 5.27, 74000, 14042)

  const MockRouteData: seq<MockRoute> := [RouteUsuUnimed, RouteUsuMedanKota]
  const MockKecamatanData: seq<MockKecamatan> := [MedanBaru, MedanSelayang, MedanKota]

  datatype Body =
    | ErrorBody(error: string)
    | RouteKecamatan(route: MockRoute, kecamatan: seq<MockKecamatan>)

  datatype Response = Response(status: nat, body: Body)

  /** The route `parseInt` finds for the parameter: `None` when no route has the parsed
      id, including when nothing parses (`NaN` equals no id). */
  function LookUpRoute(routeId: string): Option<MockRoute> {
    match ParseInt(routeId)
    case None => None
    case Some(n) => Find(MockRouteData, (r: MockRoute) => r.id_rute == n)
  }

  /** The districts of the mock list whose id the route lists, in mock-list order. */
  function KecamatanOf(route: MockRoute): seq<MockKecamatan> {
    Filter(MockKecamatanData, (k: MockKecamatan) => k.id_kecamatan in route.kecamatan_ids)
  }

  /** `GET` for the query parameter `id` (`None` when it is absent). */
  function Get(id: Option<string>): Response {
    if id.None? || id.value == "" then Response(400, ErrorBody("Route ID is required"))
    else
      match LookUpRoute(id.value)
      case None => Response(404, ErrorBody("Route not found"))
      case Some(route) => Response(200, RouteKecamatan(route, KecamatanOf(route)))
  }

  /** A missing or empty parameter is refused with 400. */
  lemma MissingIdIsBadRequest(id: Option<string>)
    ensures id.None? || id == Some("") <==> Get(id) == Response(400, ErrorBody("Route ID is required"))
  {
  }

  /** Every answer is 400, 404 or 200; a non-empty parameter gets 404 exactly when no mock
      route has the id it parses to. */
  lemma GetOutcomes(routeId: string)
    requires routeId != ""
    ensures Get(Some(routeId)).status == 404 <==>
      (ParseInt(routeId).None? || forall i :: 0 <= i < |MockRouteData| ==> MockRouteData[i].id_rute != ParseInt(routeId).value)
    ensures Get(Some(routeId)).status == 404 ==> Get(Some(routeId)).body == ErrorBody("Route not found")
    ensures Get(Some(routeId)).status == 200 || Get(Some(routeId)).status == 404
  {
  }

  /** A found route is the first mock route with the parsed id (at index `j`), and the
      districts are exactly the mock districts it lists, in mock-list order. */
  lemma FoundRouteFacts(routeId: string) returns (j: nat)
    requires Get(Some(routeId)).status == 200
    ensures var b := Get(Some(routeId)).body;
      && b.RouteKecamatan?
      && ParseInt(routeId).Some? && b.route.id_rute == ParseInt(routeId).value
      && j < |MockRouteData| && MockRouteData[j] == b.route
      && (forall i :: 0 <= i < j ==> MockRouteData[i].id_rute != b.route.id_rute)
      && (forall k :: k in b.kecamatan <==> k in MockKecamatanData && k.id_kecamatan in b.route.kecamatan_ids)
      && b.kecamatan ==
           (if 1 in b.route.kecamatan_ids then [MedanBaru] else [])
           + (if 2 in b.route.kecamatan_ids then [MedanSelayang] else [])
           + (if 3 in b.route.kecamatan_ids then [MedanKota] else [])
  {
    var n := ParseInt(routeId).value;
    FindMockRoute(n);
    j := if n == 1 then 0 else 1;
    DistrictsOfRoute(Get(Some(routeId)).body.route);
  }

  /** Every mock route is found by its own id written in decimal. */
  lemma EveryRouteIsFound(i: nat)
    requires i < |MockRouteData|
    ensures Get(Some(IntToString(MockRouteData[i].id_rute))).body.RouteKecamatan?
    ensures Get(Some(IntToString(MockRouteData[i].id_rute))).body.route == MockRouteData[i]
  {
    ParseIntOfIntToString(MockRouteData[i].id_rute);
    assert IntToString(MockRouteData[i].id_rute) != "" by {
      assert MockRouteData[i].id_rute >= 0;
    }
  }

  /** Route 1 passes Medan Baru and Medan Selayang; route 2 passes Medan Baru and Medan Kota. */
  lemma MockRouteDistricts()
    ensures KecamatanOf(RouteUsuUnimed) == [MedanBaru, MedanSelayang]
    ensures KecamatanOf(RouteUsuMedanKota) == [MedanBaru, MedanKota]
  {
    DistrictsOfRoute(RouteUsuUnimed);
    DistrictsOfRoute(RouteUsuMedanKota);
  }

  /** The filter over the three mock districts, written out one district at a time. */
  lemma DistrictsOfRoute(route: MockRoute)
    ensures KecamatanOf(route) ==
      (if 1 in route.kecamatan_ids then [MedanBaru] else [])
      + (if 2 in route.kecamatan_ids then [MedanSelayang] else [])
      + (if 3 in route.kecamatan_ids then [MedanKota] else [])
  {
    var p := (k: MockKecamatan) => k.id_kecamatan in route.kecamatan_ids;
    assert MockKecamatanData[1..] == [MedanSelayang, MedanKota];
    assert [MedanSelayang, MedanKota][1..] == [MedanKota];
    assert [MedanKota][1..] == [];
    assert Filter([MedanKota], p) == (if 3 in route.kecamatan_ids then [MedanKota] else []) + Filter([], p);
    assert Filter([MedanSelayang, MedanKota], p) == (if 2 in route.kecamatan_ids then [MedanSelayang] else []) + Filter([MedanKota], p);
    assert Filter(MockKecamatanData, p) == (if 1 in route.kecamatan_ids then [MedanBaru] else []) + Filter([MedanSelayang, MedanKota], p);
  }

  /** The route found for each id: 1 and 2 name the two mock routes, anything else none. */
  lemma FindMockRoute(n: int)
    ensures Find(MockRouteData, (r: MockRoute) => r.id_rute == n) ==
      if n == 1 then Some(RouteUsuUnimed) else if n == 2 then Some(RouteUsuMedanKota) else None
  {
    var p := (r: MockRoute) => r.id_rute == n;
    FindCons(MockRouteData, p);
    assert MockRouteData[1..] == [RouteUsuMedanKota];
    FindCons([RouteUsuMedanKota], p);
    assert [RouteUsuMedanKota][1..] == [];
  }

  lemma ParseDecimalPrefix()
    ensures ParseInt("1abc") == Some(1)
  {
    assert TrimStart("1abc") == "1abc";
    assert DigitPrefix("1abc", 10) == "1";
    assert DigitsValue("1", 10) == 1;
  }

  lemma ParseHex()
    ensures ParseInt("0x2") == Some(2)
  {
    assert TrimStart("0x2") == "0x2";
    assert "0x2"[2..] == "2";
    assert DigitPrefix("2", 16) == "2";
    assert DigitsValue("2", 16) == 2;
  }

  lemma ParseNothing()
    ensures ParseInt("abc") == None
  {
    assert TrimStart("abc") == "abc";
    assert DigitPrefix("abc", 10) == "";
  }

  /** Route 1 by its decimal id. */
  lemma RouteOneExample()
    ensures Get(Some("1")) == Response(200, RouteKecamatan(RouteUsuUnimed, [MedanBaru, MedanSelayang]))
  {
    MockRouteDistricts();
    ParseIntOfNatToString(1);
    assert NatToString(1) == "1";
    FindMockRoute(1);
  }

  /** `parseInt` stops at the first non-digit: "1abc" is route 1. */
  lemma DigitPrefixExample()
    ensures Get(Some("1abc")).body.RouteKecamatan? && Get(Some("1abc")).body.route == RouteUsuUnimed
  {
    ParseDecimalPrefix();
    FindMockRoute(1);
  }

  /** `parseInt` reads a "0x" prefix as hexadecimal: "0x2" is route 2. */
  lemma HexExample()
    ensures Get(Some("0x2")).body.RouteKecamatan? && Get(Some("0x2")).body.route == RouteUsuMedanKota
  {
    ParseHex();
    FindMockRoute(2);
  }

  /** "abc" parses to nothing and "3" names no route: both get 404. */
  lemma NotFoundExamples()
    ensures Get(Some("abc")) == Response(404, ErrorBody("Route not found"))
    ensures Get(Some("3")) == Response(404, ErrorBody("Route not found"))
  {
    ParseNothing();
    ParseIntOfNatToString(3);
    assert NatToString(3) == "3";
    FindMockRoute(3);
  }
}
