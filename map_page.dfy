/**
 * The state of the map page (src/app/map/page.tsx): layer switches, start-location
 * selection, the route selection the sidebar resets, and the district list with its
 * per-district visibility. Toasts are recorded in a log; they are shown only once the
 * page runs on the client. `Row` is the type of the nearby-campus and nearby-station
 * rows the page passes through without looking inside them.
 */
module MapPage {
  import opened Wrappers
  import opened Seqs
  import opened Text
  import opened MapTypes

  datatype ToastKind = Info | Success | Error
  datatype Toast = Toast(kind: ToastKind, message: string, description: string)

  /** What the district request came back with: a successful response with its rows, a
      response that is not ok, or a failed request. */
  datatype KecamatanResponse = Loaded(rows: seq<KecamatanData>) | NotOk | FetchFailed

  /** The ids of a district list. */
  function Ids(ks: seq<KecamatanData>): set<int> {
    set k | k in ks :: k.id_kecamatan
  }

  /** The visibility record after a load: every loaded id, mapped to true. */
  function AllVisible(ks: seq<KecamatanData>): (m: map<int, bool>)
    ensures m.Keys == Ids(ks)
    ensures forall id :: id in m ==> m[id]
  {
    map id | id in Ids(ks) :: true
  }

  /** The `forEach` that builds the initial visibility record. */
  method BuildInitialVisibility(rows: seq<KecamatanData>) returns (m: map<int, bool>)
    ensures m == AllVisible(rows)
  {
    m := map[];
    var i := 0;
    while i < |rows|
      invariant 0 <= i <= |rows|
      invariant m == AllVisible(rows[..i])
    {
      assert Ids(rows[..i + 1]) == Ids(rows[..i]) + {rows[i].id_kecamatan} by {
        assert rows[..i + 1] == rows[..i] + [rows[i]];
      }
      m := m[rows[i].id_kecamatan := true];
      i := i + 1;
    }
    assert rows[..|rows|] == rows;
  }

  /** The districts left after deleting id `id`. */
  function WithoutKecamatan(ks: seq<KecamatanData>, id: int): seq<KecamatanData> {
    Filter(ks, (k: KecamatanData) => k.id_kecamatan != id)
  }

  /** `prev.map(...)` of `handleChangeKecamatanColor`. */
  function Recolored(ks: seq<KecamatanData>, id: int, newColor: string): (r: seq<KecamatanData>)
    ensures |r| == |ks|
  {
    Map(ks, (k: KecamatanData) => if k.id_kecamatan == id then k.(warna := newColor) else k)
  }

  /** Deleting removes exactly the districts with that id and keeps all the others. */
  lemma WithoutKecamatanFacts(ks: seq<KecamatanData>, id: int)
    ensures forall i :: 0 <= i < |WithoutKecamatan(ks, id)| ==>
      WithoutKecamatan(ks, id)[i].id_kecamatan != id && WithoutKecamatan(ks, id)[i] in ks
    ensures forall i :: 0 <= i < |ks| && ks[i].id_kecamatan != id ==> ks[i] in WithoutKecamatan(ks, id)
    ensures Ids(WithoutKecamatan(ks, id)) == Ids(ks) - {id}
    ensures (forall i :: 0 <= i < |ks| ==> ks[i].id_kecamatan != id) ==> WithoutKecamatan(ks, id) == ks
  {
    var r := WithoutKecamatan(ks, id);
    forall x | x in Ids(ks) - {id} ensures x in Ids(r) {
      var k :| k in ks && k.id_kecamatan == x;
      assert k in r;
    }
    FilterAllOrNone(ks, (k: KecamatanData) => k.id_kecamatan != id);
  }

  /** Deleting keeps the others' order: it works piece by piece along the list, keeping a
      district exactly when its id differs. */
  lemma WithoutKecamatanKeepsOrder(a: seq<KecamatanData>, b: seq<KecamatanData>, id: int)
    ensures WithoutKecamatan(a + b, id) == WithoutKecamatan(a, id) + WithoutKecamatan(b, id)
    ensures forall k :: WithoutKecamatan([k], id) == if k.id_kecamatan != id then [k] else []
  {
    FilterAppend(a, b, (k: KecamatanData) => k.id_kecamatan != id);
    forall k ensures WithoutKecamatan([k], id) == if k.id_kecamatan != id then [k] else [] {
      assert [k][1..] == [];
    }
  }

  /** Deleting twice is deleting once. */
  lemma WithoutKecamatanIdempotent(ks: seq<KecamatanData>, id: int)
    ensures WithoutKecamatan(WithoutKecamatan(ks, id), id) == WithoutKecamatan(ks, id)
  {
    WithoutKecamatanFacts(ks, id);
    WithoutKecamatanFacts(WithoutKecamatan(ks, id), id);
  }

  /** Recolouring keeps length, order and ids; exactly the districts with the id get the new
      colour, and nothing else about any district changes. */
  lemma RecoloredFacts(ks: seq<KecamatanData>, id: int, newColor: string)
    ensures var r := Recolored(ks, id, newColor);
      && (forall i :: 0 <= i < |ks| ==> r[i].id_kecamatan == ks[i].id_kecamatan)
      && (forall i :: 0 <= i < |ks| && ks[i].id_kecamatan == id ==> r[i] == ks[i].(warna := newColor))
      && (forall i :: 0 <= i < |ks| && ks[i].id_kecamatan != id ==> r[i] == ks[i])
      && Ids(r) == Ids(ks)
  {
    var r := Recolored(ks, id, newColor);
    forall x | x in Ids(ks) ensures x in Ids(r) {
      var i :| 0 <= i < |ks| && ks[i].id_kecamatan == x;
      assert r[i] in r;
    }
    forall x | x in Ids(r) ensures x in Ids(ks) {
      var i :| 0 <= i < |r| && r[i].id_kecamatan == x;
      assert ks[i] in ks;
    }
  }

  /** Recolouring with the same colour twice is recolouring once. */
  lemma RecoloredIdempotent(ks: seq<KecamatanData>, id: int, newColor: string)
    ensures Recolored(Recolored(ks, id, newColor), id, newColor) == Recolored(ks, id, newColor)
  {
    RecoloredFacts(ks, id, newColor);
    RecoloredFacts(Recolored(ks, id, newColor), id, newColor);
  }

  /** Deleting a district after recolouring it is the same as deleting it: the recolour
      only touched districts that the delete removes. */
  lemma {:induction false} DeleteAfterRecolor(ks: seq<KecamatanData>, id: int, newColor: string)
    ensures WithoutKecamatan(Recolored(ks, id, newColor), id) == WithoutKecamatan(ks, id)
  {
    if ks != [] {
      assert Recolored(ks, id, newColor)[1..] == Recolored(ks[1..], id, newColor);
      DeleteAfterRecolor(ks[1..], id, newColor);
    }
  }

  /** All of the page's state slots at once. */
  datatype PageState<Row> = PageState(
    showCampuses: bool, showStations: bool, showRoutes: bool, showFacilities: bool, showKecamatan: bool,
    startLocation: Option<Pair>, selectedCampus: Option<int>, isSelectingLocation: bool,
    nearestCampus: Option<Row>, nearestStations: seq<Row>,
    kecamatanData: seq<KecamatanData>, kecamatanVisibility: map<int, bool>,
    isClient: bool, toasts: seq<Toast>)

  class Page<Row> {
    var showCampuses: bool
    var showStations: bool
    var showRoutes: bool
    var showFacilities: bool
    var showKecamatan: bool
    var startLocation: Option<Pair>
    var selectedCampus: Option<int>
    var isSelectingLocation: bool
    var nearestCampus: Option<Row>
    var nearestStations: seq<Row>
    var kecamatanData: seq<KecamatanData>
    var kecamatanVisibility: map<int, bool>
    var isClient: bool
    var toasts: seq<Toast>

    /** The page's fields as one value, so that a handler can say which slots it writes
        and that every other one keeps its value. */
    function State(): PageState<Row>
      reads this
    {
      PageState(showCampuses, showStations, showRoutes, showFacilities, showKecamatan,
                startLocation, selectedCampus, isSelectingLocation, nearestCampus, nearestStations,
                kecamatanData, kecamatanVisibility, isClient, toasts)
    }

    /** The visibility record has an entry for exactly the districts on the page. */
    predicate VisibilityMatchesData()
      reads this
    {
      kecamatanVisibility.Keys == Ids(kecamatanData)
    }

    /** The initial `useState` values. */
    constructor ()
      ensures State() == PageState(true, true, true, true, true, None, None, false, None, [], [], map[], false, [])
      ensures VisibilityMatchesData()
    {
      showCampuses, showStations, showRoutes, showFacilities, showKecamatan := true, true, true, true, true;
      startLocation, selectedCampus, isSelectingLocation := None, None, false;
      nearestCampus, nearestStations := None, [];
      kecamatanData, kecamatanVisibility := [], map[];
      isClient, toasts := false, [];
    }

    /** The mount effect. */
    method Mount()
      modifies this
      ensures State() == old(State()).(isClient := true)
    {
      isClient := true;
    }

    /** The toast helper: only the client shows one. */
    method Notify(t: Toast)
      modifies this
      ensures State() == old(State()).(toasts := if old(isClient) then old(toasts) + [t] else old(toasts))
    {
      if isClient {
        toasts := toasts + [t];
      }
    }

    /** `fetchKecamatanData`: a good response replaces the list and makes every loaded
        district visible; otherwise the list stays and, on the client, an error is shown. */
    method LoadKecamatan(response: KecamatanResponse)
      modifies this
      ensures response.Loaded? ==>
        State() == old(State()).(kecamatanData := response.rows, kecamatanVisibility := AllVisible(response.rows))
      ensures response.Loaded? ==> VisibilityMatchesData()
      ensures response.NotOk? ==> State() == old(State()).(toasts := old(toasts) +
        (if old(isClient) then [Toast(Error, "Gagal memuat data kecamatan", "Silakan coba lagi.")] else []))
      ensures response.FetchFailed? ==> State() == old(State()).(toasts := old(toasts) +
        (if old(isClient) then [Toast(Error, "Gagal memuat data kecamatan", "Terjadi kesalahan saat mengambil data.")] else []))
    {
      match response {
        case Loaded(rows) =>
          kecamatanData := rows;
          var initialVisibility := BuildInitialVisibility(rows);
          kecamatanVisibility := initialVisibility;
        case NotOk =>
          Notify(Toast(Error, "Gagal memuat data kecamatan", "Silakan coba lagi."));
        case FetchFailed =>
          Notify(Toast(Error, "Gagal memuat data kecamatan", "Terjadi kesalahan saat mengambil data."));
      }
    }

    /** `handleStartLocationSelection`: enter selection mode and forget the start location. */
    method HandleStartLocationSelection()
      modifies this
      ensures State() == old(State()).(isSelectingLocation := true, startLocation := None,
        toasts := old(toasts) + (if old(isClient) then [Toast(Info, "Klik pada peta untuk memilih lokasi awal", "")] else []))
    {
      isSelectingLocation := true;
      Notify(Toast(Info, "Klik pada peta untuk memilih lokasi awal", ""));
      startLocation := None;
    }

    /** `handleMapClick`: while selecting, the click becomes the start location and selection
        mode ends; otherwise nothing happens. */
    method HandleMapClick(latlng: Pair)
      modifies this
      ensures old(isSelectingLocation) ==>
        State() == old(State()).(startLocation := Some(latlng), isSelectingLocation := false,
          toasts := old(toasts) + (if old(isClient) then [Toast(Info, "Lokasi awal telah dipilih", "")] else []))
      ensures !old(isSelectingLocation) ==> State() == old(State())
    {
      if isSelectingLocation {
        startLocation := Some(latlng);
        isSelectingLocation := false;
        Notify(Toast(Info, "Lokasi awal telah dipilih", ""));
      }
    }

    /** `onCampusSelect`. */
    method SelectCampus(campusId: Option<int>)
      modifies this
      ensures State() == old(State()).(selectedCampus := campusId)
    {
      selectedCampus := campusId;
    }

    /** `resetRouteSelection`. */
    method ResetRouteSelection()
      modifies this
      ensures State() == old(State()).(startLocation := None, selectedCampus := None,
                                      nearestCampus := None, nearestStations := [])
    {
      startLocation := None;
      selectedCampus := None;
      nearestCampus := None;
      nearestStations := [];
    }

    /** `handleToggleKecamatanVisibility`: only the entry for `kecamatanId` changes. For a
        district on the page the record still matches the list. */
    method HandleToggleKecamatanVisibility(kecamatanId: int, show: bool)
      modifies this
      ensures State() == old(State()).(kecamatanVisibility := old(kecamatanVisibility)[kecamatanId := show])
      ensures forall id :: id in old(kecamatanVisibility) && id != kecamatanId ==>
        id in kecamatanVisibility && kecamatanVisibility[id] == old(kecamatanVisibility)[id]
      ensures old(VisibilityMatchesData()) && kecamatanId in Ids(kecamatanData) ==> VisibilityMatchesData()
    {
      kecamatanVisibility := kecamatanVisibility[kecamatanId := show];
    }

    /** `handleDeleteKecamatan`: drop the districts with that id and their visibility entry. */
    method HandleDeleteKecamatan(kecamatanId: int)
      modifies this
      ensures State() == old(State()).(
        kecamatanData := WithoutKecamatan(old(kecamatanData), kecamatanId),
        kecamatanVisibility := old(kecamatanVisibility) - {kecamatanId},
        toasts := old(toasts) + (if old(isClient) then
          [Toast(Success, "Kecamatan dengan ID " + IntToString(kecamatanId) + " telah dihapus.", "")] else []))
      ensures old(VisibilityMatchesData()) ==> VisibilityMatchesData()
    {
      WithoutKecamatanFacts(kecamatanData, kecamatanId);
      kecamatanData := WithoutKecamatan(kecamatanData, kecamatanId);
      kecamatanVisibility := kecamatanVisibility - {kecamatanId};
      Notify(Toast(Success, "Kecamatan dengan ID " + IntToString(kecamatanId) + " telah dihapus.", ""));
    }

    /** `handleChangeKecamatanColor`. */
    method HandleChangeKecamatanColor(kecamatanId: int, newColor: string)
      modifies this
      ensures State() == old(State()).(
        kecamatanData := Recolored(old(kecamatanData), kecamatanId, newColor),
        toasts := old(toasts) + (if old(isClient) then
          [Toast(Success, "Warna kecamatan dengan ID " + IntToString(kecamatanId) + " telah diganti menjadi " + newColor + ".", "")] else []))
      ensures old(VisibilityMatchesData()) ==> VisibilityMatchesData()
    {
      RecoloredFacts(kecamatanData, kecamatanId, newColor);
      kecamatanData := Recolored(kecamatanData, kecamatanId, newColor);
      Notify(Toast(Success, "Warna kecamatan dengan ID " + IntToString(kecamatanId) + " telah diganti menjadi " + newColor + ".", ""));
    }
  }
}
