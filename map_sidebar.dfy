/**
 * The colour editing and selection handlers of the map sidebar
 * (src/components/map/map-sidebar.tsx): the colour record built from the district list,
 * the per-id edit, the debounced comparison that tells the page which districts to
 * recolour, the location reset and the synchronous part of the district and route
 * selections. `Row` is the type of the rows fetched for the lists the sidebar shows.
 */
module MapSidebar {
  import opened Wrappers
  import opened Seqs
  import opened Text
  import opened MapTypes
  import opened MapPage

  /** The colour of a district that has none. */
  const DefaultKecamatanColor := "#6b7280"

  /** The colour record `initialColors`: each district writes its colour, or the default,
      under its id; for a repeated id the last district wins. */
  function InitialColors(ks: seq<KecamatanData>): map<int, string> {
    if ks == [] then map[]
    else
      var k := ks[|ks| - 1];
      InitialColors(ks[..|ks| - 1])[k.id_kecamatan := Or(k.warna, DefaultKecamatanColor)]
  }

  /** The `forEach` of the colour effect. */
  method BuildInitialColors(ks: seq<KecamatanData>) returns (m: map<int, string>)
    ensures m == InitialColors(ks)
  {
    m := map[];
    var i := 0;
    while i < |ks|
      invariant 0 <= i <= |ks|
      invariant m == InitialColors(ks[..i])
    {
      assert ks[..i + 1][..i] == ks[..i];
      m := m[ks[i].id_kecamatan := Or(ks[i].warna, DefaultKecamatanColor)];
      i := i + 1;
    }
    assert ks[..|ks|] == ks;
  }

  /** The record has an entry for exactly the districts' ids; a district whose id does not
      come again later gets its colour, or the default when its colour is empty. */
  lemma {:induction false} InitialColorsFacts(ks: seq<KecamatanData>)
    ensures InitialColors(ks).Keys == Ids(ks)
    ensures forall i :: 0 <= i < |ks| && (forall j :: i < j < |ks| ==> ks[j].id_kecamatan != ks[i].id_kecamatan) ==>
      InitialColors(ks)[ks[i].id_kecamatan] == Or(ks[i].warna, DefaultKecamatanColor)
  {
    if ks != [] {
      var n := |ks| - 1;
      var init := ks[..n];
      InitialColorsFacts(init);
      assert ks == init + [ks[n]];
      assert Ids(ks) == Ids(init) + {ks[n].id_kecamatan};
      forall i | 0 <= i < n && (forall j :: i < j < |ks| ==> ks[j].id_kecamatan != ks[i].id_kecamatan)
        ensures InitialColors(ks)[ks[i].id_kecamatan] == Or(ks[i].warna, DefaultKecamatanColor)
      {
        assert init[i] == ks[i];
        assert forall j :: i < j < |init| ==> init[j] == ks[j];
      }
    }
  }

  /** The first district with id `id`, as `kecamatanData.find` returns it. */
  function KecamatanById(ks: seq<KecamatanData>, id: int): Option<KecamatanData> {
    Find(ks, (k: KecamatanData) => k.id_kecamatan == id)
  }

  /** The debounced effect calls `onChangeKecamatanColor(id, color)` when a district with
      that id exists and the first one's colour differs from `color`. */
  predicate NeedsColorChange(ks: seq<KecamatanData>, id: int, color: string) {
    KecamatanById(ks, id).Some? && KecamatanById(ks, id).value.warna != color
  }

  /** `calls` are the calls of the debounced effect: each one is for an entry of the
      debounced record that needs a change, with that entry's colour; every such entry
      has its call; and the calls come by ascending id, the order in which
      `Object.entries` lists integer keys. */
  predicate IsColorChangeCalls(debounced: map<int, string>, ks: seq<KecamatanData>, calls: seq<(int, string)>) {
    && (forall i :: 0 <= i < |calls| ==>
         calls[i].0 in debounced && calls[i].1 == debounced[calls[i].0] && NeedsColorChange(ks, calls[i].0, calls[i].1))
    && (forall id :: id in debounced && NeedsColorChange(ks, id, debounced[id]) ==> (id, debounced[id]) in calls)
    && StrictlyAscending(calls)
  }

  predicate StrictlyAscending(calls: seq<(int, string)>) {
    forall i, j :: 0 <= i < j < |calls| ==> calls[i].0 < calls[j].0
  }

  /** A non-empty set has an element. */
  lemma SomeElement<T>(s: set<T>) returns (x: T)
    requires s != {}
    ensures x in s
  {
    x :| x in s;
  }

  /** Every non-empty set of ids has a least element. */
  lemma {:induction false} LeastId(s: set<int>) returns (m: int)
    requires s != {}
    ensures m in s && forall x :: x in s ==> m <= x
  {
    var x := SomeElement(s);
    if s == {x} {
      m := x;
    } else {
      var rest := LeastId(s - {x});
      m := if x < rest then x else rest;
      forall y | y in s ensures m <= y {
        if y != x {
          assert y in s - {x};
        }
      }
    }
  }

  /** The loop's state: `calls` are the calls for the entries already visited (those not in
      `remaining`), and every visited id is below every id still to come. */
  predicate CallsSoFar(debounced: map<int, string>, ks: seq<KecamatanData>, calls: seq<(int, string)>, remaining: set<int>) {
    && remaining <= debounced.Keys
    && (forall i :: 0 <= i < |calls| ==>
         calls[i].0 in debounced && calls[i].0 !in remaining
         && calls[i].1 == debounced[calls[i].0] && NeedsColorChange(ks, calls[i].0, calls[i].1))
    && (forall id :: id in debounced && id !in remaining && NeedsColorChange(ks, id, debounced[id]) ==>
         (id, debounced[id]) in calls)
    && StrictlyAscending(calls)
    && (forall i, x :: 0 <= i < |calls| && x in remaining ==> calls[i].0 < x)
  }

  /** Visiting the least remaining entry keeps the loop's state. */
  lemma VisitLeast(debounced: map<int, string>, ks: seq<KecamatanData>, calls: seq<(int, string)>,
                   remaining: set<int>, id: int)
    requires CallsSoFar(debounced, ks, calls, remaining)
    requires id in remaining && forall x :: x in remaining ==> id <= x
    ensures CallsSoFar(debounced, ks,
      if NeedsColorChange(ks, id, debounced[id]) then calls + [(id, debounced[id])] else calls,
      remaining - {id})
  {
    var color := debounced[id];
    if NeedsColorChange(ks, id, color) {
      var calls' := calls + [(id, color)];
      assert calls'[|calls|] == (id, color);
      assert forall i :: 0 <= i < |calls| ==> calls'[i] == calls[i];
    }
  }

  /** The effect's loop over the debounced entries, in ascending id order. */
  method ColorChangeCalls(debounced: map<int, string>, ks: seq<KecamatanData>) returns (calls: seq<(int, string)>)
    ensures IsColorChangeCalls(debounced, ks, calls)
  {
    calls := [];
    var remaining := debounced.Keys;
    while remaining != {}
      invariant CallsSoFar(debounced, ks, calls, remaining)
      decreases |remaining|
    {
      ghost var least := LeastId(remaining);
      var id :| id in remaining && forall x :: x in remaining ==> id <= x;
      VisitLeast(debounced, ks, calls, remaining, id);
      if NeedsColorChange(ks, id, debounced[id]) {
        calls := calls + [(id, debounced[id])];
      }
      remaining := remaining - {id};
    }
  }

  /** The calls are determined: two lists of calls for the same record and districts are
      the same list. */
  lemma {:induction false} ColorChangeCallsUnique(debounced: map<int, string>, ks: seq<KecamatanData>,
                                                  a: seq<(int, string)>, b: seq<(int, string)>)
    requires IsColorChangeCalls(debounced, ks, a) && IsColorChangeCalls(debounced, ks, b)
    ensures a == b
  {
    assert forall x :: x in a <==> x in b;
    AscendingSameElements(a, b);
  }

  /** The head of a strictly ascending list has the least id of all its elements, and is
      the only element with that id. */
  lemma HeadIsLeast(a: seq<(int, string)>, x: (int, string))
    requires StrictlyAscending(a) && x in a
    ensures a[0].0 <= x.0 && (a[0].0 == x.0 ==> a[0] == x)
  {
    var j :| 0 <= j < |a| && a[j] == x;
    assert j == 0 || a[0].0 < a[j].0;
  }

  lemma {:induction false} AscendingSameElements(a: seq<(int, string)>, b: seq<(int, string)>)
    requires StrictlyAscending(a) && StrictlyAscending(b)
    requires forall x :: x in a <==> x in b
    ensures a == b
  {
    assert a != [] ==> a[0] in b;
    assert b != [] ==> b[0] in a;
    if a != [] && b != [] {
      HeadIsLeast(a, b[0]);
      HeadIsLeast(b, a[0]);
      forall x ensures x in a[1..] <==> x in b[1..] {
        if x in a[1..] {
          var i :| 1 <= i < |a| && a[i] == x;
          assert a[0].0 < x.0;
          assert x in b;
        }
        if x in b[1..] {
          var i :| 1 <= i < |b| && b[i] == x;
          assert b[0].0 < x.0;
          assert x in a;
        }
      }
      AscendingSameElements(a[1..], b[1..]);
      assert a == [a[0]] + a[1..] && b == [b[0]] + b[1..];
    }
  }

  /** The page's answer to the calls: `handleChangeKecamatanColor` for each, in order. */
  function ApplyCalls(ks: seq<KecamatanData>, calls: seq<(int, string)>): seq<KecamatanData>
    decreases |calls|
  {
    if calls == [] then ks else ApplyCalls(Recolored(ks, calls[0].0, calls[0].1), calls[1..])
  }

  /** Recolouring id `id` changes the first district with id `id2` only if the ids agree,
      and then only its colour. */
  lemma {:induction false} FindAfterRecolor(ks: seq<KecamatanData>, id: int, color: string, id2: int)
    ensures KecamatanById(Recolored(ks, id, color), id2).Some? == KecamatanById(ks, id2).Some?
    ensures KecamatanById(ks, id2).Some? ==> (KecamatanById(Recolored(ks, id, color), id2).value ==
      if id2 == id then KecamatanById(ks, id2).value.(warna := color) else KecamatanById(ks, id2).value)
  {
    if ks != [] {
      var r := Recolored(ks, id, color);
      FindCons(ks, (k: KecamatanData) => k.id_kecamatan == id2);
      FindCons(r, (k: KecamatanData) => k.id_kecamatan == id2);
      assert r[1..] == Recolored(ks[1..], id, color);
      FindAfterRecolor(ks[1..], id, color, id2);
    }
  }

  /** Calls for other ids leave the first district with id `id` as it was. */
  lemma {:induction false} UntouchedByCalls(ks: seq<KecamatanData>, calls: seq<(int, string)>, id: int)
    requires forall i :: 0 <= i < |calls| ==> calls[i].0 != id
    ensures KecamatanById(ApplyCalls(ks, calls), id) == KecamatanById(ks, id)
    decreases |calls|
  {
    if calls != [] {
      FindAfterRecolor(ks, calls[0].0, calls[0].1, id);
      UntouchedByCalls(Recolored(ks, calls[0].0, calls[0].1), calls[1..], id);
    }
  }

  /** After the calls, the first district with a called id has the called colour. */
  lemma {:induction false} SettledByCalls(ks: seq<KecamatanData>, calls: seq<(int, string)>, id: int, color: string)
    requires StrictlyAscending(calls) && (id, color) in calls
    requires KecamatanById(ks, id).Some?
    ensures KecamatanById(ApplyCalls(ks, calls), id) == Some(KecamatanById(ks, id).value.(warna := color))
    decreases |calls|
  {
    var ks' := Recolored(ks, calls[0].0, calls[0].1);
    FindAfterRecolor(ks, calls[0].0, calls[0].1, id);
    if calls[0] == (id, color) {
      UntouchedByCalls(ks', calls[1..], id);
    } else {
      var i :| 0 <= i < |calls| && calls[i] == (id, color);
      assert i > 0;
      assert calls[1..][i - 1] == (id, color);
      SettledByCalls(ks', calls[1..], id, color);
    }
  }

  /** Once the page has applied the calls, the effect, run again on the same record,
      finds nothing left to change. */
  lemma ColorCallsSettle(debounced: map<int, string>, ks: seq<KecamatanData>, calls: seq<(int, string)>)
    requires IsColorChangeCalls(debounced, ks, calls)
    ensures forall id :: id in debounced ==> !NeedsColorChange(ApplyCalls(ks, calls), id, debounced[id])
  {
    forall id | id in debounced
      ensures !NeedsColorChange(ApplyCalls(ks, calls), id, debounced[id])
    {
      if NeedsColorChange(ks, id, debounced[id]) {
        SettledByCalls(ks, calls, id, debounced[id]);
      } else {
        forall i | 0 <= i < |calls| ensures calls[i].0 != id {
          assert NeedsColorChange(ks, calls[i].0, calls[i].1);
        }
        UntouchedByCalls(ks, calls, id);
      }
    }
  }

  /** The first district in a list with distinct ids is the one with that id. */
  lemma KecamatanByIdDistinct(ks: seq<KecamatanData>, i: int)
    requires 0 <= i < |ks|
    requires forall a, b :: 0 <= a < b < |ks| ==> ks[a].id_kecamatan != ks[b].id_kecamatan
    ensures KecamatanById(ks, ks[i].id_kecamatan) == Some(ks[i])
  {
    var p := (k: KecamatanData) => k.id_kecamatan == ks[i].id_kecamatan;
    assert p(ks[i]);
    var r := Find(ks, p);
    var j :| 0 <= j < |ks| && ks[j] == r.value && forall l :: 0 <= l < j ==> !p(ks[l]);
    assert j == i;
  }

  /** Before any edit, with distinct ids, the effect recolours exactly the districts with no
      colour, to the default grey: the record holds the default where `warna` is empty. */
  lemma UneditedColorsCallUncoloured(ks: seq<KecamatanData>, i: int)
    requires 0 <= i < |ks|
    requires forall a, b :: 0 <= a < b < |ks| ==> ks[a].id_kecamatan != ks[b].id_kecamatan
    ensures var id := ks[i].id_kecamatan;
      id in InitialColors(ks)
      && (NeedsColorChange(ks, id, InitialColors(ks)[id]) <==> ks[i].warna == "")
      && (ks[i].warna == "" ==> InitialColors(ks)[id] == DefaultKecamatanColor)
  {
    InitialColorsFacts(ks);
    KecamatanByIdDistinct(ks, i);
  }

  /** All of the sidebar's state slots at once. */
  datatype SidebarState<Row> = SidebarState(
    isClient: bool, colorValues: map<int, string>,
    nearestCampuses: seq<Row>, nearestStations: seq<Row>,
    selectedKecamatan: Option<int>, kecamatanStations: seq<Row>, loadingKecamatanStations: bool,
    selectedRoute: Option<int>, routeKecamatan: seq<Row>, loadingRouteKecamatan: bool,
    toasts: seq<Toast>)

  /** The sidebar's state: the colour record, the nearby lists, the two selections with the
      lists they load, and its toasts. */
  class Sidebar<Row> {
    var isClient: bool
    var colorValues: map<int, string>
    var nearestCampuses: seq<Row>
    var nearestStations: seq<Row>
    var selectedKecamatan: Option<int>
    var kecamatanStations: seq<Row>
    var loadingKecamatanStations: bool
    var selectedRoute: Option<int>
    var routeKecamatan: seq<Row>
    var loadingRouteKecamatan: bool
    var toasts: seq<Toast>

    /** The sidebar's fields as one value. */
    function State(): SidebarState<Row>
      reads this
    {
      SidebarState(isClient, colorValues, nearestCampuses, nearestStations,
                   selectedKecamatan, kecamatanStations, loadingKecamatanStations,
                   selectedRoute, routeKecamatan, loadingRouteKecamatan, toasts)
    }

    /** The initial `useState` values. */
    constructor ()
      ensures State() == SidebarState(false, map[], [], [], None, [], false, None, [], false, [])
    {
      isClient, colorValues := false, map[];
      nearestCampuses, nearestStations := [], [];
      selectedKecamatan, kecamatanStations, loadingKecamatanStations := None, [], false;
      selectedRoute, routeKecamatan, loadingRouteKecamatan := None, [], false;
      toasts := [];
    }

    /** The mount effect. */
    method Mount()
      modifies this
      ensures State() == old(State()).(isClient := true)
    {
      isClient := true;
    }

    /** The effect on `kecamatanData`: the colour record is rebuilt from the list. */
    method SyncColors(kecamatanData: seq<KecamatanData>)
      modifies this
      ensures State() == old(State()).(colorValues := InitialColors(kecamatanData))
    {
      colorValues := BuildInitialColors(kecamatanData);
    }

    /** `handleColorChange`: only the entry for `kecamatanId` changes. */
    method HandleColorChange(kecamatanId: int, newColor: string)
      modifies this
      ensures State() == old(State()).(colorValues := old(colorValues)[kecamatanId := newColor])
      ensures forall id :: id in old(colorValues) && id != kecamatanId ==>
        id in colorValues && colorValues[id] == old(colorValues)[id]
    {
      colorValues := colorValues[kecamatanId := newColor];
    }

    /** `handleResetLocation`: reset the page's route selection, clear both nearby lists and
        say so. */
    method HandleResetLocation(page: Page<Row>)
      modifies this, page
      ensures page.State() == old(page.State()).(startLocation := None, selectedCampus := None,
                                                 nearestCampus := None, nearestStations := [])
      ensures State() == old(State()).(nearestCampuses := [], nearestStations := [],
        toasts := old(toasts) + [Toast(Info, "Lokasi dan hasil pencarian telah direset.", "")])
    {
      page.ResetRouteSelection();
      nearestCampuses := [];
      nearestStations := [];
      toasts := toasts + [Toast(Info, "Lokasi dan hasil pencarian telah direset.", "")];
    }

    /** `handleKecamatanSelect` up to its first `await`: off the client nothing happens; the
        empty choice clears the station list; any other choice starts loading. */
    method HandleKecamatanSelect(id: Option<int>)
      modifies this
      ensures !old(isClient) ==> State() == old(State())
      ensures old(isClient) && id.None? ==>
        State() == old(State()).(selectedKecamatan := id, kecamatanStations := [])
      ensures old(isClient) && id.Some? ==>
        State() == old(State()).(selectedKecamatan := id, loadingKecamatanStations := true)
    {
      if !isClient {
        return;
      }
      selectedKecamatan := id;
      if id.None? {
        kecamatanStations := [];
        return;
      }
      loadingKecamatanStations := true;
    }

    /** `handleRouteSelect` up to its first `await`, as for districts. */
    method HandleRouteSelect(id: Option<int>)
      modifies this
      ensures !old(isClient) ==> State() == old(State())
      ensures old(isClient) && id.None? ==>
        State() == old(State()).(selectedRoute := id, routeKecamatan := [])
      ensures old(isClient) && id.Some? ==>
        State() == old(State()).(selectedRoute := id, loadingRouteKecamatan := true)
    {
      if !isClient {
        return;
      }
      selectedRoute := id;
      if id.None? {
        routeKecamatan := [];
        return;
      }
      loadingRouteKecamatan := true;
    }
  }
}
