/** Colour resolution of the static overlays (`drawRoads` and `drawStations` in
    Map/mapapp.js). Colours are CSS colour names, as in the script. */
module Overlay {
  import opened JsValues
  import opened Geo

  /** `roadColors`: colour per road type. */
  const RoadColors: map<string, string> :=
    map["national" := "brown", "prefecture" := "green", "toll" := "purple",
        "private" := "gray", "normal" := "black"]

  /** `trafficColors`: colour per traffic state; `normal` maps to `null`. */
  const TrafficColors: map<string, Option<string>> :=
    map["normal" := None, "congestion" := Some("red"), "restriction" := Some("orange"),
        "caution" := Some("yellow")]

  /** Every colour a road can be drawn in. */
  const RoadPalette: set<string> :=
    {"brown", "green", "purple", "gray", "black", "red", "orange", "yellow"}

  /** A property lookup: a missing key reads as `undefined`. */
  function Lookup<V>(m: map<string, V>, key: string): Option<V>
  {
    if key in m then Some(m[key]) else None
  }

  /** `trafficColors[road.traffic]`, with `null` and `undefined` both absent. */
  function TrafficColor(traffic: string): (c: Option<string>)
    ensures traffic !in TrafficColors || traffic == "normal" ==> c.None?
    ensures c.Some? ==> c.value in {"red", "orange", "yellow"}
    ensures traffic in TrafficColors ==> c == TrafficColors[traffic]
  {
    match Lookup(TrafficColors, traffic)
    case Some(color) => color
    case None => None
  }

  /** `roadColors[road.type] || 'black'`. */
  function TypeColor(kind: string): (c: string)
    ensures kind in RoadColors ==> c == RoadColors[kind]
    ensures kind !in RoadColors ==> c == "black"
  {
    OrString(Lookup(RoadColors, kind), "black")
  }

  /** `trafficColor || baseColor`: the traffic colour wins when there is one, else the
      type colour, else black. */
  function RoadColor(kind: string, traffic: string): (c: string)
    ensures c in RoadPalette
    ensures TrafficColor(traffic).Some? ==> c == TrafficColor(traffic).value
    ensures TrafficColor(traffic).None? && kind in RoadColors ==> c == RoadColors[kind]
    ensures TrafficColor(traffic).None? && kind !in RoadColors ==> c == "black"
  {
    OrString(TrafficColor(traffic), TypeColor(kind))
  }

  /** Normal traffic never overrides the road type's colour. */
  lemma NormalTrafficKeepsTypeColor(kind: string)
    ensures RoadColor(kind, "normal") == TypeColor(kind)
  {
  }

  /** A traffic state outside the table is ignored too. */
  lemma UnknownTrafficKeepsTypeColor(kind: string, traffic: string)
    requires traffic !in TrafficColors
    ensures RoadColor(kind, traffic) == TypeColor(kind)
  {
  }

  /** `st.type === 'japan_rail' ? 'yellow' : 'blue'`. */
  function StationColor(kind: string): (c: string)
    ensures c == "yellow" <==> kind == "japan_rail"
    ensures c == "blue" <==> kind != "japan_rail"
  {
    if kind == "japan_rail" then "yellow" else "blue"
  }

  /** An entry of `roadsData`. */
  datatype Road = Road(coords: seq<LatLng>, kind: string, traffic: string)

  /** An entry of `stationsData`. */
  datatype Station = Station(latlng: LatLng, kind: string, name: string)

  /** What `drawRoads` adds to the map for one road: a polyline in its colour. */
  datatype RoadLine = RoadLine(coords: seq<LatLng>, color: string)

  /** What `drawStations` adds for one station: a circle marker and its hover label. */
  datatype StationCircle = StationCircle(center: LatLng, color: string, tooltip: string)

  /** `drawRoads`: one coloured polyline per road, in data order. */
  method DrawRoads(roads: seq<Road>) returns (lines: seq<RoadLine>)
    ensures |lines| == |roads|
    ensures forall i :: 0 <= i < |roads| ==>
              lines[i] == RoadLine(roads[i].coords, RoadColor(roads[i].kind, roads[i].traffic))
  {
    lines := [];
    for i := 0 to |roads|
      invariant |lines| == i
      invariant forall j :: 0 <= j < i ==>
                  lines[j] == RoadLine(roads[j].coords, RoadColor(roads[j].kind, roads[j].traffic))
    {
      var baseColor := TypeColor(roads[i].kind);
      var trafficColor := TrafficColor(roads[i].traffic);
      var color := OrString(trafficColor, baseColor);
      lines := lines + [RoadLine(roads[i].coords, color)];
    }
  }

  /** `drawStations`: one circle per station, coloured by type and labelled with its name. */
  method DrawStations(stations: seq<Station>) returns (circles: seq<StationCircle>)
    ensures |circles| == |stations|
    ensures forall i :: 0 <= i < |stations| ==>
              circles[i] == StationCircle(stations[i].latlng, StationColor(stations[i].kind), stations[i].name)
  {
    circles := [];
    for i := 0 to |stations|
      invariant |circles| == i
      invariant forall j :: 0 <= j < i ==>
                  circles[j] == StationCircle(stations[j].latlng, StationColor(stations[j].kind), stations[j].name)
    {
      var st := stations[i];
      circles := circles + [StationCircle(st.latlng, StationColor(st.kind), st.name)];
    }
  }

  /** The two sample roads: a national road in normal traffic is brown, a congested
      prefectural road is red. */
  lemma SampleRoadColors()
    ensures RoadColor("national", "normal") == "brown"
    ensures RoadColor("prefecture", "congestion") == "red"
  {
  }
}
