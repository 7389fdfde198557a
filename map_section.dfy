/**
 * The map panel: the loaded-map flag, the centre, the scalar `activeMarker` that decides the one
 * open info window, the commands issued to the map widget, the numbered markers and the guard
 * that shows a placeholder while there is no key.
 */
module MapView {
  import opened Wrappers
  import opened JsValues
  import opened JsText
  import opened Places
  import opened PlaceCard
  import opened AppState

  const DefaultCenter := LatLng(Num("-6.2088"), Num("106.8456"))
  const DefaultZoom := 13
  const SelectedZoom := 15

  /** A call on the map widget. */
  datatype MapCommand = PanTo(target: LatLng) | SetZoom(level: nat) | FitBounds(points: seq<LatLng>)

  class MapSection {
    /** `map !== null`: the widget reported `onLoad` and not yet `onUnmount`. */
    var mapLoaded: bool
    var center: LatLng
    /** The `place_id` whose info window is open, if any. */
    var activeMarker: Option<string>
    /** Every command issued to the widget, oldest first. */
    var commands: seq<MapCommand>

    constructor ()
      ensures !mapLoaded && center == DefaultCenter && activeMarker == None && commands == []
    {
      mapLoaded := false;
      center := DefaultCenter;
      activeMarker := None;
      commands := [];
    }

    method OnLoad()
      modifies this
      ensures mapLoaded
      ensures center == old(center) && activeMarker == old(activeMarker) && commands == old(commands)
    {
      mapLoaded := true;
    }

    method OnUnmount()
      modifies this
      ensures !mapLoaded
      ensures center == old(center) && activeMarker == old(activeMarker) && commands == old(commands)
    {
      mapLoaded := false;
    }

    /** The geolocation callback re-centres the map; a failure changes nothing. */
    method OnGeolocated(position: Option<LatLng>)
      modifies this
      ensures center == (if position.Some? then position.value else old(center))
      ensures mapLoaded == old(mapLoaded) && activeMarker == old(activeMarker) && commands == old(commands)
    {
      if position.Some? {
        center := position.value;
      }
    }

    /** The places effect: fit the bounds of all markers when the map is loaded and there are
        places. */
    method FitBoundsEffect(places: seq<Place>)
      modifies this
      ensures mapLoaded && places != [] ==> commands == old(commands) + [FitBounds(Locations(places))]
      ensures !(mapLoaded && places != []) ==> commands == old(commands)
      ensures mapLoaded == old(mapLoaded) && center == old(center) && activeMarker == old(activeMarker)
    {
      if mapLoaded && |places| > 0 {
        commands := commands + [FitBounds(Locations(places))];
      }
    }

    /** The selection effect: with a loaded map and a selection, pan there, zoom to 15 and open
        that place's info window; otherwise nothing. */
    method SelectedPlaceEffect(selected: Option<Place>)
      modifies this
      ensures mapLoaded && selected.Some? ==>
        && commands == old(commands) + [PanTo(selected.value.location), SetZoom(SelectedZoom)]
        && activeMarker == Some(selected.value.placeId)
      ensures !(mapLoaded && selected.Some?) ==> commands == old(commands) && activeMarker == old(activeMarker)
      ensures mapLoaded == old(mapLoaded) && center == old(center)
    {
      if mapLoaded && selected.Some? {
        commands := commands + [PanTo(selected.value.location)];
        commands := commands + [SetZoom(SelectedZoom)];
        activeMarker := Some(selected.value.placeId);
      }
    }

    /** A marker click opens its info window and writes the shared selection. */
    method HandleMarkerClick(place: Place, app: App)
      modifies this, app
      ensures activeMarker == Some(place.placeId)
      ensures app.selectedPlace == Some(place) && app.places == old(app.places)
      ensures app.apiKey == old(app.apiKey) && app.isLoading == old(app.isLoading) && app.error == old(app.error)
      ensures mapLoaded == old(mapLoaded) && center == old(center) && commands == old(commands)
    {
      activeMarker := Some(place.placeId);
      app.HandlePlaceSelect(place);
    }

    method HandleInfoWindowClose()
      modifies this
      ensures activeMarker == None
      ensures mapLoaded == old(mapLoaded) && center == old(center) && commands == old(commands)
    {
      activeMarker := None;
    }

    /** What the panel renders for the shell's key and places: the placeholder without a truthy
        key; otherwise the map at the panel's centre and the default zoom, one marker per place
        labelled by its 1-based rank, with the info window open on the active marker only. */
    function Render(apiKey: Option<Json>, places: seq<Place>): (r: MapScreen)
      reads this
      ensures r == Placeholder <==> !TruthyOpt(apiKey)
      ensures r.Map? ==> r.center == center && r.zoom == DefaultZoom && |r.markers| == |places|
      ensures r.Map? ==> forall i :: 0 <= i < |places| ==>
        r.markers[i].labelText == NatToString(i + 1) && r.markers[i].position == places[i].location
      ensures r.Map? ==> forall i :: 0 <= i < |places| ==> (r.markers[i].info.Some? <==> activeMarker == Some(places[i].placeId))
    {
      View(apiKey, center, places, activeMarker)
    }
  }

  function Locations(places: seq<Place>): (r: seq<LatLng>)
    ensures |r| == |places| && forall i :: 0 <= i < |places| ==> r[i] == places[i].location
  {
    if places == [] then [] else [places[0].location] + Locations(places[1..])
  }

  /** `(index + 1).toString()` for each marker, in list order. */
  function MarkerLabels(n: nat): (r: seq<string>)
    ensures |r| == n
  {
    if n == 0 then [] else MarkerLabels(n - 1) + [NatToString(n)]
  }

  /** The labels are the numerals of 1..n in order, so no two markers share a label. */
  lemma {:induction false} LabelsDistinct(n: nat)
    ensures forall i :: 0 <= i < n ==> MarkerLabels(n)[i] == NatToString(i + 1)
    ensures forall i, j :: 0 <= i < j < n ==> MarkerLabels(n)[i] != MarkerLabels(n)[j]
  {
    LabelAt(n);
    forall i, j | 0 <= i < j < n
      ensures MarkerLabels(n)[i] != MarkerLabels(n)[j]
    {
      NatToStringInjective(i + 1, j + 1);
    }
  }

  /** The info window's text: name, `formatted_address || vicinity`, and the rating line. */
  datatype InfoWindow = InfoWindow(title: string, address: Option<string>, rating: RatingView)

  datatype Marker = Marker(labelText: string, position: LatLng, info: Option<InfoWindow>)

  datatype MapScreen = Placeholder | Map(center: LatLng, zoom: nat, markers: seq<Marker>)

  function InfoAddress(p: Place): Option<string> {
    if TruthyText(p.formattedAddress) then p.formattedAddress else p.vicinity
  }

  function Markers(places: seq<Place>, activeMarker: Option<string>, labels: seq<string>): (r: seq<Marker>)
    requires |labels| == |places|
    ensures |r| == |places|
    ensures forall i :: 0 <= i < |places| ==> r[i].labelText == labels[i] && r[i].position == places[i].location
    ensures forall i :: 0 <= i < |places| ==> (r[i].info.Some? <==> activeMarker == Some(places[i].placeId))
    ensures forall i :: 0 <= i < |places| && r[i].info.Some? ==>
      r[i].info.value == InfoWindow(places[i].name, InfoAddress(places[i]), Rating(places[i]))
  {
    if places == [] then []
    else
      var p := places[0];
      var info := if activeMarker == Some(p.placeId) then Some(InfoWindow(p.name, InfoAddress(p), Rating(p))) else None;
      [Marker(labels[0], p.location, info)] + Markers(places[1..], activeMarker, labels[1..])
  }

  /** The panel: a placeholder while the key is falsy, otherwise the map with one numbered marker
      per place. */
  function View(apiKey: Option<Json>, center: LatLng, places: seq<Place>, activeMarker: Option<string>): (r: MapScreen)
    ensures r == Placeholder <==> !TruthyOpt(apiKey)
    ensures r.Map? ==> r.center == center && r.zoom == DefaultZoom && |r.markers| == |places|
    ensures r.Map? ==> forall i :: 0 <= i < |places| ==>
      r.markers[i].labelText == NatToString(i + 1) && r.markers[i].position == places[i].location
    ensures r.Map? ==> forall i :: 0 <= i < |places| ==> (r.markers[i].info.Some? <==> activeMarker == Some(places[i].placeId))
  {
    if !TruthyOpt(apiKey) then Placeholder
    else
      var labels := MarkerLabels(|places|);
      LabelAt(|places|);
      Map(center, DefaultZoom, Markers(places, activeMarker, labels))
  }

  lemma {:induction false} LabelAt(n: nat)
    ensures forall i :: 0 <= i < n ==> MarkerLabels(n)[i] == NatToString(i + 1)
  {
    if n > 0 {
      LabelAt(n - 1);
      assert forall i :: 0 <= i < n - 1 ==> MarkerLabels(n)[i] == MarkerLabels(n - 1)[i];
    }
  }

  /** With distinct ids (as the search service returns them) at most one info window is open,
      and it belongs to the active marker. */
  lemma AtMostOneInfoWindow(apiKey: Option<Json>, center: LatLng, places: seq<Place>, activeMarker: Option<string>)
    requires UniqueIds(places)
    ensures var r := View(apiKey, center, places, activeMarker);
      r.Map? ==> forall i, j :: 0 <= i < |places| && 0 <= j < |places| && r.markers[i].info.Some? && r.markers[j].info.Some? ==> i == j
  {
  }

  /** Closing the window leaves none open. */
  lemma NoneOpenWhenInactive(apiKey: Option<Json>, center: LatLng, places: seq<Place>)
    ensures var r := View(apiKey, center, places, None);
      r.Map? ==> forall i :: 0 <= i < |places| ==> r.markers[i].info == None
  {
  }

  /** The info window's address agrees with the card's whenever the window has a truthy one. */
  lemma InfoAddressMatchesCard(p: Place)
    ensures TruthyText(InfoAddress(p)) ==> InfoAddress(p).value == Address(p)
    ensures !TruthyText(InfoAddress(p)) ==> Address(p) == NoAddress
  {
  }
}
