/**
 * The marker icons of src/components/map/map-icons.ts and `getStationIcon`, which picks a
 * station's icon from its type, ignoring case.
 */
module MapIcons {
  import opened Text

  /** `L.icon` options: image path, size, anchor point and popup offset in pixels. */
  datatype IconSpec = IconSpec(iconUrl: string, iconSize: (int, int), iconAnchor: (int, int), popupAnchor: (int, int))

  const CampusIcon := IconSpec("/images/icon/school.png", (32, 32), (16, 32), (0, -32))
  const FacilityIcon := IconSpec("/images/icon/facility.png", (28, 28), (14, 28), (0, -28))
  const AngkotIcon := IconSpec("/images/icon/angkot.png", (28, 28), (14, 28), (0, -28))
  const HalteIcon := IconSpec("/images/icon/bus-stop.png", (30, 30), (15, 30), (0, -30))
  const TrainIcon := IconSpec("/images/icon/train.png", (30, 30), (15, 30), (0, -30))
  const DefaultIcon := IconSpec("/images/icon/marker.png", (25, 41), (12, 41), (1, -34))

  /** `getStationIcon`. */
  function GetStationIcon(stationType: string): IconSpec {
    var typeLower := ToLower(stationType);
    if typeLower == "halte" then HalteIcon
    else if typeLower == "stasiun" then TrainIcon
    else if typeLower == "terminal" then AngkotIcon
    else DefaultIcon
  }

  /** Each of the three station icons is chosen exactly for its type name, in any case;
      every other type gets the default icon. */
  lemma StationIconByType(stationType: string)
    ensures GetStationIcon(stationType) == HalteIcon <==> ToLower(stationType) == "halte"
    ensures GetStationIcon(stationType) == TrainIcon <==> ToLower(stationType) == "stasiun"
    ensures GetStationIcon(stationType) == AngkotIcon <==> ToLower(stationType) == "terminal"
    ensures GetStationIcon(stationType) == DefaultIcon <==>
      ToLower(stationType) !in {"halte", "stasiun", "terminal"}
  {
  }

  /** Upper and lower case make no difference: "HALTE", "Halte" and "halte" get one icon. */
  lemma StationIconIgnoresCase(stationType: string)
    ensures GetStationIcon(ToLower(stationType)) == GetStationIcon(stationType)
  {
    ToLowerIdempotent(stationType);
  }

  lemma UpperCaseHalte()
    ensures GetStationIcon("HALTE") == HalteIcon
  {
    assert ToLower("HALTE") == "halte";
  }
}
