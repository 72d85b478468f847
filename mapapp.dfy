/** The application state of Map/mapapp.js: the module-level `markers` array, the drawn
    `routeLine`, the distance label, the `markers` entry of local storage and the active
    background layer, gathered into one object whose methods are the script's handlers. */
module MapApp {
  import opened JsValues
  import opened Geo
  import opened Markers
  import opened Tiles

  /** The text of `routeDistance`: empty, or `経路距離: <total> km`. */
  datatype Label = Blank | RouteKm(total: real)

  /** The line `updateRoute` leaves on the map for the coordinates `ps`. */
  function RouteLine(ps: seq<LatLng>): (line: Option<seq<LatLng>>)
    ensures line.None? <==> |ps| < 2
    ensures line.Some? ==> line.value == ps
  {
    if |ps| < 2 then None else Some(ps)
  }

  /** The label `updateRoute` leaves for the coordinates `ps`. */
  function RouteLabel(d: Distance, ps: seq<LatLng>): (text: Label)
    ensures text.Blank? <==> |ps| < 2
    ensures text.RouteKm? ==> text.total == LegSum(d, ps) && text.total >= 0.0
  {
    PathLengthIsLegSum(d, ps);
    if |ps| < 2 then Blank else RouteKm(PathLength(d, ps))
  }

  class App {
    /** `haversineDistance`. */
    const dist: Distance
    /** `markers`, in insertion order. */
    var markers: seq<Marker>
    /** The identity the next marker receives. */
    var nextId: nat
    /** The route polyline currently on the map, if any. */
    var routeLine: Option<seq<LatLng>>
    /** `routeDistanceDisplay.innerText`. */
    var distanceText: Label
    /** `localStorage.getItem('markers')`, parsed: absent, or the stored `{lat, lng}` list. */
    var stored: Option<seq<LatLng>>
    /** The tile layers on the map. */
    var activeLayers: set<TileLayer>

    /** Marker identities are distinct and all were handed out; one background is shown. */
    ghost predicate Valid()
      reads this`markers, this`nextId, this`activeLayers
    {
      && IdsIssued(markers, nextId)
      && ExactlyOne(activeLayers)
    }

    /** The route line and label reflect the current markers. */
    ghost predicate RouteCurrent()
      reads this`markers, this`routeLine, this`distanceText
    {
      routeLine == RouteLine(Coords(markers)) && distanceText == RouteLabel(dist, Coords(markers))
    }

    /** The stored snapshot mirrors the current markers. */
    ghost predicate Saved()
      reads this`markers, this`stored
    {
      stored == Some(Coords(markers))
    }

    /** The page at load time: no markers, no route, the standard tiles, and whatever a
        previous session left in storage. */
    constructor (d: Distance, persisted: Option<seq<LatLng>>)
      ensures Valid()
      ensures dist == d && markers == [] && stored == persisted
      ensures routeLine == None && distanceText == Blank && activeLayers == InitialLayers
    {
      dist := d;
      markers := [];
      nextId := 0;
      routeLine := None;
      distanceText := Blank;
      stored := persisted;
      activeLayers := InitialLayers;
    }

    /** `updateRoute`: the old line is taken off the map; below two markers the label is
        cleared, otherwise a line through the markers in order is drawn and labelled with
        the sum of its legs. */
    method UpdateRoute()
      modifies this`routeLine, this`distanceText
      ensures RouteCurrent()
      ensures |markers| < 2 ==> routeLine == None && distanceText == Blank
      ensures |markers| >= 2 ==>
                routeLine == Some(Coords(markers)) &&
                distanceText == RouteKm(LegSum(dist, Coords(markers)))
    {
      routeLine := None;
      if |markers| < 2 {
        distanceText := Blank;
        return;
      }
      var latlngs := Coords(markers);
      routeLine := Some(latlngs);
      var totalDist := SumLegs(dist, latlngs);
      distanceText := RouteKm(totalDist);
    }

    /** `saveMarkers`: the coordinate list replaces whatever was stored. */
    method SaveMarkers()
      modifies this`stored
      ensures Saved()
    {
      stored := Some(Coords(markers));
    }

    /** `addMarker`: one new marker, with a fresh identity, goes to the end of the list;
        then the route is redrawn and the list saved. */
    method AddMarker(pos: LatLng, opts: MarkerOptions) returns (m: Marker)
      requires Valid()
      modifies this
      ensures Valid() && RouteCurrent() && Saved()
      ensures m == NewMarker(old(nextId), pos, opts) && m.draggable
      ensures markers == old(markers) + [m]
      ensures forall i :: 0 <= i < |old(markers)| ==> old(markers)[i].id != m.id
      ensures Coords(markers) == old(Coords(markers)) + [pos]
      ensures nextId == old(nextId) + 1 && activeLayers == old(activeLayers)
    {
      m := NewMarker(nextId, pos, opts);
      AppendFresh(markers, nextId, m);
      nextId := nextId + 1;
      markers := markers + [m];
      UpdateRoute();
      SaveMarkers();
    }

    /** The `dragend` handler of marker `id`, which Leaflet has moved to `pos`. */
    method DragEnd(id: nat, pos: LatLng)
      requires Valid()
      modifies this
      ensures Valid() && RouteCurrent() && Saved()
      ensures markers == Moved(old(markers), id, pos)
      ensures forall k :: 0 <= k < |old(markers)| && old(markers)[k].id == id ==>
                markers == old(markers)[k := old(markers)[k].(pos := pos)] &&
                Coords(markers) == old(Coords(markers))[k := pos]
      ensures nextId == old(nextId) && activeLayers == old(activeLayers)
    {
      ghost var before := markers;
      MovedUnique(markers, id, pos);
      markers := Moved(markers, id, pos);
      UpdateRoute();
      SaveMarkers();
      forall k | 0 <= k < |before| && before[k].id == id
        ensures markers == before[k := before[k].(pos := pos)]
        ensures Coords(markers) == Coords(before)[k := pos]
      {
        MovedOne(before, k, pos);
      }
    }

    /** The `contextmenu` handler of marker `id`: the marker leaves the list, the others
        keep their order; then the route is redrawn and the list saved. */
    method ContextMenu(id: nat)
      requires Valid()
      modifies this
      ensures Valid() && RouteCurrent() && Saved()
      ensures markers == Without(old(markers), id)
      ensures forall k :: 0 <= k < |old(markers)| && old(markers)[k].id == id ==>
                markers == old(markers)[..k] + old(markers)[k + 1..]
      ensures nextId == old(nextId) && activeLayers == old(activeLayers)
    {
      ghost var before := markers;
      WithoutIssued(markers, nextId, id);
      markers := Without(markers, id);
      UpdateRoute();
      SaveMarkers();
      forall k | 0 <= k < |before| && before[k].id == id
        ensures markers == before[..k] + before[k + 1..]
      {
        WithoutRemovesOne(before, k);
      }
    }

    /** `loadMarkers`: nothing when the key is absent; otherwise each stored pair is added,
        in stored order, as a draggable marker (each addition saves again). */
    method LoadMarkers()
      requires Valid()
      modifies this
      ensures Valid() && activeLayers == old(activeLayers)
      ensures old(stored).None? || old(stored) == Some([]) ==> unchanged(this)
      ensures old(stored).Some? ==>
                markers == old(markers) + Restored(old(stored).value, old(nextId))
      ensures old(stored).Some? ==> nextId == old(nextId) + |old(stored).value|
      ensures old(stored).Some? && old(stored).value != [] ==> RouteCurrent() && Saved()
    {
      if stored.None? {
        return;
      }
      var data := stored.value;
      ghost var before, first := markers, nextId;
      var i := 0;
      while i < |data|
        invariant 0 <= i <= |data|
        invariant Valid() && activeLayers == old(activeLayers)
        invariant markers == before + Restored(data[..i], first) && nextId == first + i
        invariant i > 0 ==> RouteCurrent() && Saved()
        invariant i == 0 ==> unchanged(this)
      {
        RestoredSnoc(data, first, i);
        ghost var done := Restored(data[..i], first);
        var m := AddMarker(data[i], MarkerOptions(Some(true), None));
        assert m == Marker(first + i, data[i], true, DefaultTitle);
        assert before + done + [m] == before + (done + [m]);
        i := i + 1;
      }
      assert data[..i] == data;
    }

    /** The `toggleDetailMap` button. */
    method ToggleDetailMap()
      requires Valid()
      modifies this`activeLayers
      ensures Valid()
      ensures activeLayers == Toggled(old(activeLayers)) && activeLayers != old(activeLayers)
    {
      ToggleKeepsExactlyOne(activeLayers);
      if BaseTiles in activeLayers {
        activeLayers := activeLayers - {BaseTiles} + {DetailTiles};
      } else {
        activeLayers := activeLayers - {DetailTiles} + {BaseTiles};
      }
    }

    /** A click on the map drops a marker there with default options. */
    method MapClick(pos: LatLng) returns (m: Marker)
      requires Valid()
      modifies this
      ensures Valid() && RouteCurrent() && Saved()
      ensures markers == old(markers) + [m] && m.pos == pos
      ensures m.draggable && m.title == DefaultTitle
      ensures forall i :: 0 <= i < |old(markers)| ==> old(markers)[i].id != m.id
      ensures nextId == old(nextId) + 1 && activeLayers == old(activeLayers)
    {
      m := AddMarker(pos, NoOptions);
    }

    /** The geolocation success callback: a marker titled 現在地 that asks not to be
        draggable, and is draggable all the same. */
    method OnGeolocated(pos: LatLng) returns (m: Marker)
      requires Valid()
      modifies this
      ensures Valid() && RouteCurrent() && Saved()
      ensures markers == old(markers) + [m] && m.pos == pos
      ensures m.draggable && m.title == "現在地"
      ensures forall i :: 0 <= i < |old(markers)| ==> old(markers)[i].id != m.id
      ensures nextId == old(nextId) + 1 && activeLayers == old(activeLayers)
    {
      m := AddMarker(pos, MarkerOptions(Some(false), Some("現在地")));
    }
  }

  /** Page start-up as far as the state goes: the map with the standard tiles, then
      `loadMarkers` over what the previous session stored. */
  method Startup(d: Distance, persisted: Option<seq<LatLng>>) returns (app: App)
    ensures fresh(app) && app.Valid() && app.dist == d
    ensures app.activeLayers == InitialLayers
    ensures persisted.None? ==> app.markers == [] && app.stored == None
    ensures persisted.Some? ==> Coords(app.markers) == persisted.value
    ensures app.RouteCurrent()
    ensures persisted.Some? ==> app.Saved()
    ensures forall i :: 0 <= i < |app.markers| ==> app.markers[i].draggable
  {
    app := new App(d, persisted);
    app.LoadMarkers();
    if persisted.Some? {
      RestoredAppend([], persisted.value, 0);
    }
  }

  /** Save-then-reload: a new page started from what `app` saved shows the same
      coordinates in the same order, every marker draggable. */
  method Reload(app: App) returns (next: App)
    requires app.Valid() && app.Saved()
    ensures fresh(next) && next.Valid()
    ensures Coords(next.markers) == Coords(app.markers)
    ensures next.Saved()
  {
    next := Startup(app.dist, app.stored);
  }
}
