/** The route map (components/map.tsx): one coloured marker per destination, red where Santa is, green
    where he has been and blue where he is still expected. */
module SantaMap {
  import opened Wrappers
  import Santa

  /** `currentDate - departure > 0`. */
  predicate SantaWasHere(now: int, d: Santa.Destination) {
    now - d.departure > 0
  }

  /** `currentDate - arrival > 0 && !santaWasHere`: strict at arrival. */
  predicate SantaIsHere(now: int, d: Santa.Destination) {
    now - d.arrival > 0 && !SantaWasHere(now, d)
  }

  datatype Colour = Red | Green | Blue

  /** The marker colour: red if here, else green if was here, else blue. */
  function MarkerColour(now: int, d: Santa.Destination): (c: Colour)
    ensures c == Red <==> d.arrival < now <= d.departure
    ensures c == Green <==> now > d.departure
    ensures c == Blue <==> now <= d.arrival && now <= d.departure
  {
    if SantaIsHere(now, d) then Red else if SantaWasHere(now, d) then Green else Blue
  }

  /** "Is here" and "was here" never hold together. */
  lemma HereExcludesWasHere(now: int, d: Santa.Destination)
    ensures !(SantaIsHere(now, d) && SantaWasHere(now, d))
  {
  }

  /** At the very instant of arrival the tracker card already reports Santa at the stop, while the map
      still paints it blue, as not yet visited. */
  lemma ArrivalInstantDisagrees(d: Santa.Destination)
    requires d.arrival <= d.departure
    ensures Santa.Contains(d, d.arrival)
    ensures MarkerColour(d.arrival, d) == Blue
  {
  }

  /** The intended "is here": inclusive at arrival, as the tracker card decides it. */
  predicate SantaIsHereInclusive(now: int, d: Santa.Destination) {
    now - d.arrival >= 0 && !SantaWasHere(now, d)
  }

  /** The colour with the inclusive test. */
  function MarkerColourInclusive(now: int, d: Santa.Destination): (c: Colour)
    ensures c == Red <==> Santa.Contains(d, now)
    ensures c == Green <==> now > d.departure
  {
    if SantaIsHereInclusive(now, d) then Red else if SantaWasHere(now, d) then Green else Blue
  }

  /** With the inclusive test a stop is red exactly when it is the tracker's current location or
      another destination whose stay contains now. */
  lemma InclusiveAgreesWithTracker(ds: seq<Santa.Destination>, now: int)
    ensures Santa.CurrentLocation(ds, now).Some? ==> MarkerColourInclusive(now, Santa.CurrentLocation(ds, now).value) == Red
    ensures Santa.CurrentLocation(ds, now).None? ==> forall i :: 0 <= i < |ds| ==> MarkerColourInclusive(now, ds[i]) != Red
  {
  }

  datatype Marker = Marker(id: string, position: Santa.Coordinates, colour: Colour)

  function MarkerFor(now: int, d: Santa.Destination): Marker {
    Marker(d.id, d.location, MarkerColour(now, d))
  }

  /** What the map has been told to show. */
  datatype Viewport = Viewport(center: Santa.Coordinates, zoom: int)

  /** The leafletMap component's two references: the leafletMap (with its view) and the marker layer. */
  class MapView {
    var leafletMap: Option<Viewport>
    var markersLayer: Option<seq<Marker>>

    constructor ()
      ensures leafletMap.None? && markersLayer.None?
    {
      leafletMap, markersLayer := None, None;
    }

    /** The mount effect: a leafletMap and an empty marker layer, only when no leafletMap exists yet. */
    method Mount(center: Santa.Coordinates, zoom: int)
      modifies this
      ensures old(leafletMap).None? ==> leafletMap == Some(Viewport(center, zoom)) && markersLayer == Some([])
      ensures old(leafletMap).Some? ==> leafletMap == old(leafletMap) && markersLayer == old(markersLayer)
    {
      if leafletMap.None? {
        leafletMap := Some(Viewport(center, zoom));
        markersLayer := Some([]);
      }
    }

    /** The mount effect's cleanup: remove the leafletMap and drop the reference; the layer reference stays. */
    method Cleanup()
      modifies this
      ensures leafletMap.None? && markersLayer == old(markersLayer)
    {
      if leafletMap.Some? {
        leafletMap := None;
      }
    }

    /** The effect on a new centre or zoom: move the view of an existing leafletMap. */
    method SetView(center: Santa.Coordinates, zoom: int)
      modifies this
      ensures old(leafletMap).Some? ==> leafletMap == Some(Viewport(center, zoom))
      ensures old(leafletMap).None? ==> leafletMap.None?
      ensures markersLayer == old(markersLayer)
    {
      if leafletMap.Some? {
        leafletMap := Some(Viewport(center, zoom));
      }
    }

    /** The marker effect: clear the layer, then add one marker per destination, in order. */
    method UpdateMarkers(ds: seq<Santa.Destination>, now: int)
      modifies this
      ensures leafletMap == old(leafletMap)
      ensures old(markersLayer).None? ==> markersLayer.None?
      ensures old(markersLayer).Some? ==>
        && markersLayer.Some? && |markersLayer.value| == |ds|
        && forall i :: 0 <= i < |ds| ==> markersLayer.value[i] == MarkerFor(now, ds[i])
    {
      if markersLayer.None? {
        return;
      }
      markersLayer := Some([]);
      var i := 0;
      while i < |ds|
        invariant 0 <= i <= |ds| && leafletMap == old(leafletMap)
        invariant markersLayer.Some? && |markersLayer.value| == i
        invariant forall j :: 0 <= j < i ==> markersLayer.value[j] == MarkerFor(now, ds[j])
      {
        markersLayer := Some(markersLayer.value + [MarkerFor(now, ds[i])]);
        i := i + 1;
      }
    }
  }
}
