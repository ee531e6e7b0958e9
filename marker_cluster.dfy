/**
 * The cluster icons and cluster groups of src/components/map/marker-cluster.ts: the icon's
 * size class follows the number of markers in the cluster, its colour the marker type.
 */
module MarkerCluster {
  import opened Text

  /** `L.divIcon` options: class names, icon size in pixels, inner html. */
  datatype DivIcon = DivIcon(className: string, iconSize: (int, int), html: string)

  /** The size class: "large" above 100 markers, "medium" from 11 to 100, else "small". */
  function ClusterSize(count: nat): (size: string)
    ensures size == "large" <==> count > 100
    ensures size == "medium" <==> 10 < count <= 100
    ensures size == "small" <==> count <= 10
  {
    if count > 100 then "large" else if count > 10 then "medium" else "small"
  }

  /** The Tailwind colour of a marker type. */
  function ClusterColor(markerType: string): (color: string)
    ensures markerType == "campus" <==> color == "emerald"
    ensures markerType == "facility" <==> color == "purple"
    ensures markerType == "station" <==> color == "amber"
    ensures color == "blue" <==> markerType !in {"campus", "facility", "station"}
  {
    match markerType
    case "campus" => "emerald"
    case "facility" => "purple"
    case "station" => "amber"
    case _ => "blue"
  }

  const HtmlOpen := "<div class=\"flex items-center justify-center w-full h-full rounded-full bg-"
  const HtmlStyle := "-500 text-white font-bold text-sm\">"
  const HtmlClose := "</div>"

  function ClassName(size: string, color: string): string {
    "marker-cluster " + ("marker-cluster-" + size) + " " + ("bg-" + color + "-100")
  }

  function IconHtml(color: string, countText: string): string {
    HtmlOpen + color + HtmlStyle + countText + HtmlClose
  }

  /** The icon `createClusterIcon(markerType)` makes for a cluster of `count` markers. */
  function ClusterIcon(markerType: string, count: nat): DivIcon {
    var color := ClusterColor(markerType);
    DivIcon(ClassName(ClusterSize(count), color), (40, 40), IconHtml(color, NatToString(count)))
  }

  lemma ClassNameParts(size: string, color: string)
    ensures Includes(ClassName(size, color), "marker-cluster-" + size)
    ensures Includes(ClassName(size, color), "bg-" + color + "-100")
  {
    var a, b, c := "marker-cluster ", "marker-cluster-" + size, "bg-" + color + "-100";
    IncludesMiddle(a, b, " " + c);
    assert ClassName(size, color) == a + b + (" " + c);
    IncludesMiddle(a + b + " ", c, "");
    assert ClassName(size, color) == (a + b + " ") + c + "";
  }

  lemma IconHtmlShowsCount(color: string, countText: string)
    ensures Includes(IconHtml(color, countText), countText)
  {
    IncludesMiddle(HtmlOpen + color + HtmlStyle, countText, HtmlClose);
  }

  /** Every cluster icon is 40 by 40; its classes name its size and its colour, and its
      html shows the count. */
  lemma ClusterIconShape(markerType: string, count: nat)
    ensures var icon := ClusterIcon(markerType, count);
      && icon.iconSize == (40, 40)
      && Includes(icon.className, "marker-cluster-" + ClusterSize(count))
      && Includes(icon.className, "bg-" + ClusterColor(markerType) + "-100")
      && Includes(icon.html, NatToString(count))
  {
    ClassNameParts(ClusterSize(count), ClusterColor(markerType));
    IconHtmlShowsCount(ClusterColor(markerType), NatToString(count));
  }

  /** `L.markerClusterGroup` options. */
  datatype ClusterGroupOptions = ClusterGroupOptions(
    chunkedLoading: bool, maxClusterRadius: nat, iconCreateFunction: nat -> DivIcon,
    spiderfyOnMaxZoom: bool, showCoverageOnHover: bool, zoomToBoundsOnClick: bool)

  datatype ClusterGroups = ClusterGroups(
    campusCluster: ClusterGroupOptions, facilityCluster: ClusterGroupOptions, stationCluster: ClusterGroupOptions)

  function GroupFor(markerType: string, radius: nat): ClusterGroupOptions {
    ClusterGroupOptions(true, radius, (count: nat) => ClusterIcon(markerType, count), true, false, true)
  }

  /** `createClusterGroups`. */
  function CreateClusterGroups(): ClusterGroups {
    ClusterGroups(GroupFor("campus", 50), GroupFor("facility", 40), GroupFor("station", 60))
  }

  lemma GroupForFacts(markerType: string, radius: nat, count: nat)
    ensures var o := GroupFor(markerType, radius);
      && o.maxClusterRadius == radius
      && o.iconCreateFunction(count) == ClusterIcon(markerType, count)
      && o.chunkedLoading && o.spiderfyOnMaxZoom && !o.showCoverageOnHover && o.zoomToBoundsOnClick
  {
  }

  /** Radii 50, 40 and 60; every group loads in chunks, spiderfies, zooms on click and hides
      coverage; and each draws its clusters in the colour of its own marker type. */
  lemma ClusterGroupsConfig(count: nat)
    ensures var g := CreateClusterGroups();
      && g.campusCluster.maxClusterRadius == 50
      && g.facilityCluster.maxClusterRadius == 40
      && g.stationCluster.maxClusterRadius == 60
      && Includes(g.campusCluster.iconCreateFunction(count).className, "bg-emerald-100")
      && Includes(g.facilityCluster.iconCreateFunction(count).className, "bg-purple-100")
      && Includes(g.stationCluster.iconCreateFunction(count).className, "bg-amber-100")
      && forall o :: o in [g.campusCluster, g.facilityCluster, g.stationCluster] ==>
           o.chunkedLoading && o.spiderfyOnMaxZoom && !o.showCoverageOnHover && o.zoomToBoundsOnClick
  {
    assert "bg-" + ClusterColor("campus") + "-100" == "bg-emerald-100";
    assert "bg-" + ClusterColor("facility") + "-100" == "bg-purple-100";
    assert "bg-" + ClusterColor("station") + "-100" == "bg-amber-100";
    GroupForFacts("campus", 50, count);
    GroupForFacts("facility", 40, count);
    GroupForFacts("station", 60, count);
    ClusterIconShape("campus", count);
    ClusterIconShape("facility", count);
    ClusterIconShape("station", count);
  }
}
