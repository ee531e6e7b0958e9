/**
 * The highlight effect of src/components/map/highlight-utils.ts. The module-level
 * references to the highlighted marker, polyline and polygon and the pending clear
 * timer are the fields of one `Highlighter` object. A reference being set to null stands
 * for its layer being removed from the map; timers are told apart by ids, and
 * `armedTimers` holds the ones that are scheduled and neither cancelled nor fired.
 */
module HighlightUtils {
  import opened Wrappers
  import opened MapTypes
  import opened Text

  /** The icon of the marker: 24 by 24 pixels, anchored at its centre. */
  const PulseIconSize: (int, int) := (24, 24)
  const PulseIconAnchor: (int, int) := (12, 12)

  /** The pulsing marker over a point: its position and colour, the colour without its '#'
      used in the `bg-` class names of the icon, and the icon's size and anchor. */
  datatype MarkerHighlight = MarkerHighlight(
    position: Pair, color: string, colorClass: string, iconSize: (int, int), iconAnchor: (int, int))

  /** The marker `highlightPoint` places: `color.replace("#", "")` names the class. */
  function PulseMarker(position: Pair, color: string): (m: MarkerHighlight)
    ensures m.position == position && m.color == color
    ensures |color| > 0 && color[0] == '#' ==> m.colorClass == color[1..]
    ensures m.iconSize == (24, 24) && m.iconAnchor == (12, 12)
  {
    MarkerHighlight(position, color, RemoveFirst(color, '#'), PulseIconSize, PulseIconAnchor)
  }

  /** The dashed line over a route path. */
  datatype PolylineHighlight = PolylineHighlight(positions: seq<Pair>, color: string)
  /** The filled outline over a district's rings. */
  datatype PolygonHighlight = PolygonHighlight(rings: seq<seq<Pair>>, color: string)

  /** Default colours of `highlightPolyline` and `highlightPolygon`. */
  const PolylineColor := "#3b82f6"
  const PolygonColor := "#6b7280"

  class Highlighter {
    var highlightedMarker: Option<MarkerHighlight>
    var highlightedPolyline: Option<PolylineHighlight>
    var highlightedPolygon: Option<PolygonHighlight>
    var pulseTimer: Option<nat>
    var armedTimers: set<nat>
    var nextTimerId: nat

    /** At most one reference is set; the timer is pending exactly while a highlight is
        shown; it is the only armed timer, and ids not yet handed out are not armed. */
    ghost predicate Valid()
      reads this
    {
      && AtMostOneHighlight()
      && (pulseTimer.Some? <==> !Cleared())
      && armedTimers == (if pulseTimer.Some? then {pulseTimer.value} else {})
      && (pulseTimer.Some? ==> pulseTimer.value < nextTimerId)
    }

    predicate AtMostOneHighlight()
      reads this
    {
      && (highlightedMarker.Some? ==> highlightedPolyline.None? && highlightedPolygon.None?)
      && (highlightedPolyline.Some? ==> highlightedPolygon.None?)
    }

    /** No highlight is shown. */
    predicate Cleared()
      reads this
    {
      highlightedMarker.None? && highlightedPolyline.None? && highlightedPolygon.None?
    }

    /** Module load: every reference starts out null. */
    constructor ()
      ensures Valid() && Cleared() && pulseTimer.None? && armedTimers == {}
    {
      highlightedMarker := None;
      highlightedPolyline := None;
      highlightedPolygon := None;
      pulseTimer := None;
      armedTimers := {};
      nextTimerId := 0;
    }

    /** `clearHighlights`: remove whatever is shown and cancel the pending timer; each
        step is guarded, so on a cleared state it changes nothing. */
    method ClearHighlights()
      requires Valid()
      modifies this
      ensures Valid() && Cleared() && pulseTimer.None? && armedTimers == {}
      ensures nextTimerId == old(nextTimerId)
      ensures old(Cleared()) ==> unchanged(this)
    {
      if highlightedMarker.Some? {
        highlightedMarker := None;
      }
      if highlightedPolyline.Some? {
        highlightedPolyline := None;
      }
      if highlightedPolygon.Some? {
        highlightedPolygon := None;
      }
      if pulseTimer.Some? {
        armedTimers := armedTimers - {pulseTimer.value};
        pulseTimer := None;
      }
    }

    /** Schedule the 5-second `clearHighlights` under a fresh id. */
    method ArmPulseTimer()
      modifies this
      ensures pulseTimer == Some(old(nextTimerId)) && nextTimerId == old(nextTimerId) + 1
      ensures armedTimers == old(armedTimers) + {old(nextTimerId)}
      ensures highlightedMarker == old(highlightedMarker) && highlightedPolyline == old(highlightedPolyline)
      ensures highlightedPolygon == old(highlightedPolygon)
    {
      pulseTimer := Some(nextTimerId);
      armedTimers := armedTimers + {nextTimerId};
      nextTimerId := nextTimerId + 1;
    }

    /** `highlightPoint`: clear, show a marker at `position`, arm a new timer. The previous
        timer, if any, is cancelled. */
    method HighlightPoint(position: Pair, color: string)
      requires Valid()
      modifies this
      ensures Valid()
      ensures highlightedMarker == Some(PulseMarker(position, color))
      ensures highlightedPolyline.None? && highlightedPolygon.None?
      ensures pulseTimer == Some(old(nextTimerId)) && armedTimers == {old(nextTimerId)}
      ensures old(pulseTimer).Some? ==> old(pulseTimer).value !in armedTimers
    {
      ClearHighlights();
      highlightedMarker := Some(PulseMarker(position, color));
      ArmPulseTimer();
    }

    /** `highlightPolyline`: clear, show a line over `positions`, arm a new timer. */
    method HighlightPolyline(positions: seq<Pair>, color: string)
      requires Valid()
      modifies this
      ensures Valid()
      ensures highlightedPolyline == Some(PolylineHighlight(positions, color))
      ensures highlightedMarker.None? && highlightedPolygon.None?
      ensures pulseTimer == Some(old(nextTimerId)) && armedTimers == {old(nextTimerId)}
      ensures old(pulseTimer).Some? ==> old(pulseTimer).value !in armedTimers
    {
      ClearHighlights();
      highlightedPolyline := Some(PolylineHighlight(positions, color));
      ArmPulseTimer();
    }

    /** `highlightPolygon`: clear, show an outline over `rings`, arm a new timer. */
    method HighlightPolygon(rings: seq<seq<Pair>>, color: string)
      requires Valid()
      modifies this
      ensures Valid()
      ensures highlightedPolygon == Some(PolygonHighlight(rings, color))
      ensures highlightedMarker.None? && highlightedPolyline.None?
      ensures pulseTimer == Some(old(nextTimerId)) && armedTimers == {old(nextTimerId)}
      ensures old(pulseTimer).Some? ==> old(pulseTimer).value !in armedTimers
    {
      ClearHighlights();
      highlightedPolygon := Some(PolygonHighlight(rings, color));
      ArmPulseTimer();
    }

    /** Timer `t` comes due. An armed timer runs `clearHighlights`, which brings the state
        back to all-null; a cancelled (or unknown) one does not run. */
    method TimerFires(t: nat)
      requires Valid()
      modifies this
      ensures Valid()
      ensures t in old(armedTimers) ==> Cleared() && pulseTimer.None? && armedTimers == {}
      ensures t !in old(armedTimers) ==> unchanged(this)
    {
      if t in armedTimers {
        ClearHighlights();
      }
    }
  }
}
