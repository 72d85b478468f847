# MapApp state core, in Dafny

MapApp is a browser map page built on Leaflet (`Map/mapapp.js`). Around the widget set-up sits a
small state core, and this project models that core:

- **Marker store.** An ordered list of markers. Clicking the map or a geolocation fix adds a
  marker. A marker's `dragend` handler records its new position. Its `contextmenu` handler
  deletes it by identity.
- **Route.** After every change the route polyline follows the markers in list order, and the
  distance label shows the sum of the distances between consecutive markers. Below two markers
  there is no line and the label is empty.
- **Persistence.** Every change writes the coordinate list to local storage under `markers`.
  At start-up `loadMarkers` adds each stored pair back in order.
- **Overlays.** A road's colour is its traffic colour, else its type colour, else black. A
  station is yellow for `japan_rail` and blue otherwise.
- **Tile toggle.** A button swaps the standard and the detail background.

Leaflet objects are replaced by values. A marker is a `Marker(id, pos, draggable, title)`, and
`id` stands for object identity. The page state is one object, `MapApp.App`. Its fields are
`markers`, `nextId`, `routeLine`, `distanceText`, `stored` (the parsed storage entry, or `None`
when the key is absent) and `activeLayers`. Each handler of the script is a method of `App`.
The great-circle distance is kept abstract: `App.dist` has type `Geo.Distance`, which allows any
function of two coordinates whose values are never negative.

Files:

- `jsvalues.dfy`: missing values and JavaScript's `||`.
- `geo.dfy`: coordinates, route length, the summation loop.
- `markers.dfy`: marker values, filtering and moving.
- `tiles.dfy`: the background toggle.
- `overlay.dfy`: the colour tables and the two drawing loops.
- `mapapp.dfy`: the application object.

Three behaviours of the code are easy to miss, and the model keeps them:

- The geolocation marker is created with `{ draggable: false, title: "現在地" }`. But
  `options.draggable || true` is `true` for every argument, so this marker is draggable like all
  others (`MapApp.App.OnGeolocated`, `Markers.NewMarker`).
- Stored data that is not valid JSON makes `JSON.parse` throw. It is not silently ignored, so it
  is left out of the model.
- A stored empty list `[]` is truthy. `loadMarkers` then iterates over nothing, and the state
  is left unchanged.

## Model

| member | source | states |
|---|---|---|
| `JsValues.OrString` | Map/mapapp.js:54 | JavaScript's logical or of a string that may be missing and a fallback: the value itself when it is present and non-empty, otherwise the fallback |
| `JsValues.OrBool` | Map/mapapp.js:54 | JavaScript's logical or of a boolean that may be missing and a fallback is true exactly when `a` is `true` or the fallback is true |
| `Geo.PathLength` | Map/mapapp.js:90-93 | the route total, accumulated leg by leg in list order, is never negative |
| `Geo.PathLengthIsLegSum` | Map/mapapp.js:90-93 | the accumulated total equals d(p0,p1) + ... + d(p(n-2),p(n-1)) over consecutive pairs |
| `Geo.LegSumSnoc` | Map/mapapp.js:90-93 | appending a point adds exactly one leg, from the old last point, to the pairwise sum |
| `Geo.PathLengthSnoc` | Map/mapapp.js:90-93 | appending a marker lengthens the route by the distance from the previous last marker only |
| `Geo.OrderMatters` | Map/mapapp.js:86-93 | the total depends on marker order: the same three points in two orders give two different totals |
| `Geo.SumLegs` | Map/mapapp.js:90-93 | the `for` loop that adds `haversineDistance(latlngs[i], latlngs[i + 1])` returns the pairwise sum |
| `Markers.NewMarker` | Map/mapapp.js:53-54 | a new marker has the given identity and position, is always draggable, and is titled by the caller's non-empty title, otherwise "マーカー" |
| `Markers.Coords` | Map/mapapp.js:118-121 | the coordinate list `markers.map(...)` has one entry per marker |
| `Markers.CoordsAt` | Map/mapapp.js:86 | the i-th coordinate of the list is the i-th marker's position, so the list follows marker order |
| `Markers.CoordsAppend` | Map/mapapp.js:86 | the coordinate list of concatenated marker lists is the concatenation of their coordinate lists |
| `Markers.AppendFresh` | Map/mapapp.js:53-75 | appending a marker with the next identity keeps identities distinct and issued; the new identity differs from every earlier one; the coordinate list grows by the new position |
| `Markers.Restored` | Map/mapapp.js:126-130 | loading creates one marker per stored pair |
| `Markers.RestoredMarkers` | Map/mapapp.js:129 | restored markers stand at the stored coordinates in stored order; each is draggable and has the default title |
| `Markers.RestoredSnoc` | Map/mapapp.js:129 | each step of the `forEach` appends one more restored marker |
| `Markers.RestoredAppend` | Map/mapapp.js:126-130 | loading after existing markers appends the stored coordinates, in order, to the existing ones |
| `Markers.Without` | Map/mapapp.js:66 | after the `filter`, no marker with the deleted identity remains and the list did not grow |
| `Markers.WithoutAbsent` | Map/mapapp.js:66 | filtering by an identity no marker has leaves the list unchanged |
| `Markers.UniqueTail` | Map/mapapp.js:66 | the markers after the first one still have distinct identities |
| `Markers.WithoutRemovesOne` | Map/mapapp.js:64-69 | when identities are distinct, deleting the k-th marker yields exactly the list without position k, the others in their original order |
| `Markers.RemoveAtIssued` | Map/mapapp.js:66 | cutting one marker out keeps identities distinct and issued |
| `Markers.WithoutIssued` | Map/mapapp.js:66 | deletion keeps identities distinct and issued, whether or not the identity is present |
| `Markers.Moved` | Map/mapapp.js:58-61 | a drag end keeps every identity, flag and title; the dragged marker gets the new position and every other marker keeps its position |
| `Markers.MovedUnique` | Map/mapapp.js:58-61 | a drag end keeps identities distinct |
| `Markers.MovedOne` | Map/mapapp.js:58-61 | when identities are distinct, a drag end replaces exactly one marker in place, and exactly one coordinate changes |
| `Tiles.Toggled` | Map/mapapp.js:133-141 | one click removes the base layer and adds the detail layer if the base layer was on, and does the reverse otherwise |
| `Tiles.ToggleKeepsExactlyOne` | Map/mapapp.js:133-141 | from exactly one background, a click leaves exactly one background, and a different one |
| `Tiles.ToggleTwice` | Map/mapapp.js:133-141 | from exactly one background, two clicks restore the original state |
| `Tiles.ToggledTimesParity` | Map/mapapp.js:20-27 | starting from the base layer alone, the detail layer is shown exactly after an odd number of clicks |
| `Overlay.TrafficColor` | Map/mapapp.js:174-185 | `trafficColors[road.traffic]` is the table's entry for every state in the table: congestion red, restriction orange, caution yellow, `normal` absent (null); a state missing from the table gives absent (undefined); any colour is one of red, orange or yellow |
| `Overlay.TypeColor` | Map/mapapp.js:184 | the type colour is the table entry for the road type, or black for an unknown type |
| `Overlay.RoadColor` | Map/mapapp.js:166-187 | the road colour is the traffic colour when there is one, else the type colour, else black, and always one of the eight palette colours |
| `Overlay.NormalTrafficKeepsTypeColor` | Map/mapapp.js:175-187 | `traffic: 'normal'` maps to null and never overrides the type colour |
| `Overlay.UnknownTrafficKeepsTypeColor` | Map/mapapp.js:185-187 | a traffic state missing from the table is ignored too |
| `Overlay.StationColor` | Map/mapapp.js:208 | a station is yellow exactly when its type is `japan_rail`, otherwise blue |
| `Overlay.DrawRoads` | Map/mapapp.js:182-191 | one polyline per road, in data order, with the road's own coordinates and resolved colour |
| `Overlay.DrawStations` | Map/mapapp.js:206-219 | one circle per station, in data order, at its position, with its resolved colour and its name as tooltip |
| `Overlay.SampleRoadColors` | Map/mapapp.js:150-187 | the sample national road in normal traffic is brown; the congested prefectural road is red |
| `MapApp.RouteLine` | Map/mapapp.js:82-87 | no line below two points; otherwise the line's vertices are exactly the points in order |
| `MapApp.RouteLabel` | Map/mapapp.js:82-94 | the label is empty exactly below two points; otherwise it shows the non-negative sum of consecutive distances |
| `MapApp.App.constructor` | Map/mapapp.js:5-27 | at page load there are no markers and no route, the standard tiles are shown, and storage holds what a previous session left |
| `MapApp.App.UpdateRoute` | Map/mapapp.js:78-95 | below two markers the line is removed and the label cleared; otherwise the line follows the marker coordinates in order and the label holds their pairwise sum |
| `MapApp.App.SaveMarkers` | Map/mapapp.js:117-124 | storage afterwards holds exactly the current coordinates in list order, replacing the old value |
| `MapApp.App.AddMarker` | Map/mapapp.js:53-75 | exactly one marker with a fresh identity is appended and earlier entries are unchanged; it is draggable; then the route is current and storage mirrors the list |
| `MapApp.App.DragEnd` | Map/mapapp.js:58-61 | only the dragged marker's coordinate changes; then the route is current and storage mirrors the list |
| `MapApp.App.ContextMenu` | Map/mapapp.js:64-69 | exactly the clicked marker is removed and the others keep their order; then the route is current and storage mirrors the list |
| `MapApp.App.LoadMarkers` | Map/mapapp.js:126-130 | nothing happens when the key is absent or the list is empty; otherwise one draggable, default-titled marker per stored pair is appended in stored order with identities issued consecutively (`nextId` advances by the number of pairs), and afterwards the route is current and storage mirrors the list |
| `MapApp.App.ToggleDetailMap` | Map/mapapp.js:133-141 | the layers become `Toggled` of the old layers; exactly one background remains, and a different one |
| `MapApp.App.MapClick` | Map/mapapp.js:223-225 | a map click appends one draggable marker with the default title and a fresh identity at the clicked point, and leaves the background alone |
| `MapApp.App.OnGeolocated` | Map/mapapp.js:40-46 | the current-location marker is appended with title 現在地 and a fresh identity, and is draggable despite `draggable: false`; the background is left alone |
| `MapApp.Startup` | Map/mapapp.js:226-228 | after page load and `loadMarkers`, the markers are exactly the stored coordinates in stored order, all draggable, with the standard tiles shown; the route matches the markers (no line and the label, taken to be blank at page load, left blank when none were stored), and storage mirrors the list whenever the key was present |
| `MapApp.Reload` | Map/mapapp.js:117-130 | save, then load into a fresh page, reproduces the same coordinate sequence, and the new page's storage again mirrors its markers |

## Left out

- The haversine formula and `deg2rad` (Map/mapapp.js:98-114) use floating-point trigonometry. The distance is an arbitrary non-negative function of two coordinates, so symmetry and d(A,A) = 0 are not stated. The code reads `a.lat || a[0]` (lines 100-103), and the coordinate objects returned by `getLatLng()` have no `[0]`. A marker at latitude or longitude exactly 0 therefore makes the distance NaN and the label `経路距離: NaN km`; a non-negative `Geo.Distance` cannot express that case.
- MapApp.App.UpdateRoute: the label holds the total as a real number. The `toFixed(2)` rounding and the surrounding text `経路距離: … km` are not modelled.
- Leaflet rendering is not modelled: map and tile-layer creation, the minimap, `addTo`, `removeLayer` of markers, polyline styles and tooltips. Only the route line, the tile-layer membership and the colours are kept as state.
- MapApp.App.OnGeolocated: the asynchronous geolocation request, `map.setView`, `currentCenter`, `currentZoom` and the error callback's log line are left out. Only the marker the success callback adds is modelled.
- Malformed JSON in storage is left out. `JSON.parse` throws on it, and the model has no exceptions.
- DOM event wiring is left out. Each handler is a method called directly.
- The static datasets `roadsData` and `stationsData` are inputs to `Overlay.DrawRoads` and `Overlay.DrawStations` here. Only the two sample roads' colours are stated.
- Overlay.RoadColor: property names inherited from `Object.prototype` (such as `constructor`) are treated as missing keys.
- The number of storage writes is not counted. `loadMarkers` writes once per restored marker; the model states only the final stored value.
- MapApp.App.constructor: the route label's text at page load comes from the page's HTML, which is not part of this model; it is taken to be blank. The script writes the label only in `updateRoute` (Map/mapapp.js:83, 94), so with no stored markers the label keeps that initial text, and `MapApp.Startup`'s route-current guarantee relies on it being blank.
- MapApp.App.DragEnd: Leaflet's positions during a drag are not modelled. The drag is one event that carries the final coordinate.
