/** The Santa tracker card (components/santa.tsx): the route's stops moved to the current year, the
    stop Santa is at now, and the map's centre and zoom. */
module Santa {
  import opened Wrappers
  import Seqs

  datatype Coordinates = Coordinates(lat: real, lng: real)

  /** A stop on Santa's route; `arrival` and `departure` in milliseconds. */
  datatype Destination = Destination(id: string, arrival: int, departure: int, population: int,
                                     presentsDelivered: int, city: string, region: string, location: Coordinates)

  /** The destinations re-dated to the current year; no route data gives no destinations.
      `toCurrentYear` is `setFullYear(currentYear)` applied to an instant. */
  function Redate(data: Option<seq<Destination>>, toCurrentYear: int -> int): (ds: seq<Destination>)
    ensures data.None? ==> ds == []
    ensures data.Some? ==> |ds| == |data.value|
    ensures data.Some? ==> forall i :: 0 <= i < |ds| ==>
      ds[i] == data.value[i].(arrival := toCurrentYear(data.value[i].arrival), departure := toCurrentYear(data.value[i].departure))
  {
    match data
    case None => []
    case Some(stops) =>
      seq(|stops|, i requires 0 <= i < |stops| =>
        stops[i].(arrival := toCurrentYear(stops[i].arrival), departure := toCurrentYear(stops[i].departure)))
  }

  /** Santa is at a destination from its arrival to its departure, both included. */
  predicate Contains(d: Destination, now: int) {
    now >= d.arrival && now <= d.departure
  }

  /** `currentLocation`: the first destination whose stay contains `now`. */
  function CurrentLocation(ds: seq<Destination>, now: int): (r: Option<Destination>)
    ensures r.None? <==> forall j :: 0 <= j < |ds| ==> !Contains(ds[j], now)
    ensures r.Some? ==> exists k :: 0 <= k < |ds| && ds[k] == r.value && (forall j :: 0 <= j < k ==> !Contains(ds[j], now))
    ensures r.Some? ==> Contains(r.value, now)
  {
    match Seqs.FindFirst(ds, (d: Destination) => Contains(d, now))
    case None => None
    case Some(k) => Some(ds[k])
  }

  /** What the component renders: the bare error text in place of the card, or the card with a
      skeleton or the tracker in its body. */
  datatype View = FailedToLoad | Skeleton | Tracker(statusPanel: Option<Destination>)

  /** What the component renders: the error text first, then the loading skeleton, then the tracker, whose status
      panel shows the current location exactly when Santa is at one of the destinations. */
  function Render(failed: bool, isLoading: bool, ds: seq<Destination>, now: int): (v: View)
    ensures failed <==> v == FailedToLoad
    ensures v == Skeleton <==> !failed && isLoading
    ensures v.Tracker? ==> (v.statusPanel.Some? <==> exists j :: 0 <= j < |ds| && Contains(ds[j], now))
    ensures v.Tracker? && v.statusPanel.Some? ==> v.statusPanel.value in ds && Contains(v.statusPanel.value, now)
  {
    if failed then FailedToLoad else if isLoading then Skeleton else Tracker(CurrentLocation(ds, now))
  }

  const INITIAL_CENTER := Coordinates(84.6, 168.0)
  const INITIAL_ZOOM := 2
  const FOLLOW_ZOOM := 4
  const CLOSE_ZOOM := 8

  /** The map's centre and zoom, which the card keeps as state. */
  class SantaTracker {
    var center: Coordinates
    var zoom: int

    constructor ()
      ensures center == INITIAL_CENTER && zoom == INITIAL_ZOOM
    {
      center, zoom := INITIAL_CENTER, INITIAL_ZOOM;
    }

    /** The effect run when the current location changes: follow Santa at zoom 4 while he is at a stop. */
    method FollowCurrentLocation(current: Option<Destination>)
      modifies this
      ensures current.Some? ==> center == current.value.location && zoom == FOLLOW_ZOOM
      ensures current.None? ==> center == old(center) && zoom == old(zoom)
    {
      if current.Some? {
        center, zoom := current.value.location, FOLLOW_ZOOM;
      }
    }

    /** The "Zoom to Santa's Location" button: zoom 8 on Santa, or nothing when he is between stops. */
    method ZoomToSanta(current: Option<Destination>)
      modifies this
      ensures current.Some? ==> center == current.value.location && zoom == CLOSE_ZOOM
      ensures current.None? ==> center == old(center) && zoom == old(zoom)
    {
      if current.Some? {
        center, zoom := current.value.location, CLOSE_ZOOM;
      }
    }
  }
}
