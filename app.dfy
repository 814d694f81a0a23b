/**
 * The route functions of app.py: the map of the straight route between the
 * waypoints, the map of the driven route (red markers), the waypoint list of the
 * shortest tour, and `get_shortest_route` end to end.
 */
module App {
  import opened Wrappers
  import opened Text
  import opened Client
  import opened Permutations
  import opened Tours
  import opened Search
  import opened Helpers

  /** `f'markers=color:red%7C{lat},{lng}'`: an unlabelled red marker (`%7C` is an escaped `|`). */
  function RedMarker(format: real -> string, w: Waypoint): string
  {
    "markers=color:red%7C" + LatLng(format, w.at)
  }

  function RedMarkers(format: real -> string, waypoints: seq<Waypoint>): seq<string>
  {
    seq(|waypoints|, i requires 0 <= i < |waypoints| => RedMarker(format, waypoints[i]))
  }

  lemma RedMarkerText()
    ensures '&' !in "markers=color:red%7C"
  {
  }

  /** Joined with `&`, the red markers split back into one marker per waypoint, in order. */
  lemma RedMarkersJoined(format: real -> string, waypoints: seq<Waypoint>)
    requires FormatsPlainly(format) && waypoints != []
    ensures Split(Join(RedMarkers(format, waypoints), '&'), '&') == RedMarkers(format, waypoints)
  {
    var ms := RedMarkers(format, waypoints);
    RedMarkerText();
    forall i | 0 <= i < |ms|
      ensures '&' !in ms[i]
    {
      LatLngPlain(format, waypoints[i].at);
    }
    SplitJoin(ms, '&');
  }

  /**
   * `get_static_map_url_straight_directins`: nothing for no waypoints; otherwise
   * one red marker per waypoint joined by `&` and one path point per waypoint
   * joined by `|`, both in waypoint order.
   */
  function StraightMap(format: real -> string, waypoints: seq<Waypoint>): (out: MapOutcome)
    ensures out.NoWaypoints? <==> waypoints == []
    ensures !out.DirectionsFailed?
    ensures out.Rendered? ==>
      && out.markers == Join(RedMarkers(format, waypoints), '&')
      && out.path == PathText(Positions(format, Locations(waypoints)))
    ensures out.Rendered? && FormatsPlainly(format) ==>
      && Split(out.markers, '&') == RedMarkers(format, waypoints)
      && Split(out.path, '|') == ["path=color:blue", "weight:3"] + Positions(format, Locations(waypoints))
  {
    if waypoints == [] then NoWaypoints
    else
      var markers := Join(RedMarkers(format, waypoints), '&');
      var path := PathText(Positions(format, Locations(waypoints)));
      StraightMapFields(format, waypoints);
      Rendered(markers, path)
  }

  lemma StraightMapFields(format: real -> string, waypoints: seq<Waypoint>)
    requires waypoints != []
    ensures FormatsPlainly(format) ==>
      && Split(Join(RedMarkers(format, waypoints), '&'), '&') == RedMarkers(format, waypoints)
      && Split(PathText(Positions(format, Locations(waypoints))), '|')
         == ["path=color:blue", "weight:3"] + Positions(format, Locations(waypoints))
  {
    if FormatsPlainly(format) {
      RedMarkersJoined(format, waypoints);
      PositionsPlain(format, Locations(waypoints));
      PathFields(Positions(format, Locations(waypoints)));
    }
  }

  /**
   * `get_static_map_url(waypoints, api_key)` of app.py, the one the shortest
   * route uses: as in helpers.py, but with unlabelled red markers.
   */
  method DrivenMap(client: MapsClient, waypoints: seq<Waypoint>) returns (out: MapOutcome)
    ensures out.NoWaypoints? <==> waypoints == []
    ensures out.DirectionsFailed? <==>
      waypoints != [] && client.routeDirections(RequestFor(client.formatNumber, waypoints)).None?
    ensures out.Rendered? ==> waypoints != [] && out.markers == Join(RedMarkers(client.formatNumber, waypoints), '&')
    ensures out.Rendered? && FormatsPlainly(client.formatNumber) ==>
      Split(out.markers, '&') == RedMarkers(client.formatNumber, waypoints)
    ensures out.Rendered? ==>
      && client.routeDirections(RequestFor(client.formatNumber, waypoints)).Some?
      && out.path == PathText(Positions(client.formatNumber,
           Subsample(RoutePoints(client.routeDirections(RequestFor(client.formatNumber, waypoints)).value))))
  {
    if waypoints == [] {
      return NoWaypoints;
    }
    var markers := Join(RedMarkers(client.formatNumber, waypoints), '&');
    var path := RoutePath(client, waypoints);
    if path.None? {
      return DirectionsFailed;
    }
    out := Rendered(markers, path.value);
    if FormatsPlainly(client.formatNumber) {
      RedMarkersJoined(client.formatNumber, waypoints);
    }
  }

  /** The waypoint of a stop: its reverse-geocoded address and the distance text from the start address to it. */
  function StopWaypoint(client: MapsClient, startAddress: string, stop: Coordinate): Waypoint
  {
    var address := client.reverseGeocode(stop);
    Waypoint(stop, address, client.distanceText(startAddress, address))
  }

  /**
   * The formatting loop of `get_shortest_route`: one waypoint per stop in the
   * chosen order, then the start once more with distance `0 mi`; the start is
   * not put in front.
   */
  method AssembleWaypoints(client: MapsClient, startAddress: string, start: Coordinate, order: seq<Coordinate>)
    returns (waypoints: seq<Waypoint>)
    ensures |waypoints| == |order| + 1
    ensures Locations(waypoints[..|order|]) == order
    ensures forall k :: 0 <= k < |order| ==> waypoints[k] == StopWaypoint(client, startAddress, order[k])
    ensures waypoints[|order|] == Waypoint(start, startAddress, "0 mi")
  {
    waypoints := [];
    for i := 0 to |order|
      invariant |waypoints| == i
      invariant forall k :: 0 <= k < i ==> waypoints[k] == StopWaypoint(client, startAddress, order[k])
    {
      var address := client.reverseGeocode(order[i]);
      var distance := client.distanceText(startAddress, address);
      waypoints := waypoints + [Waypoint(order[i], address, distance)];
    }
    waypoints := waypoints + [Waypoint(start, startAddress, "0 mi")];
    assert forall k :: 0 <= k < |order| ==> waypoints[..|order|][k].at == order[k];
  }

  /**
   * `get_shortest_route(starting_address)` with the geocoding done: the waypoint
   * list of the cheapest closed tour (stops in the kept order, then the start),
   * the kept tour's cost in meters, and the driven-route map.  The kept order is
   * an ordering of the stops, no ordering is cheaper, and every ordering before
   * it in `itertools.permutations` order is strictly dearer.
   */
  method GetShortestRoute(client: MapsClient, startAddress: string, start: Coordinate, stops: seq<Coordinate>)
    returns (waypoints: seq<Waypoint>, meters: nat, staticMap: MapOutcome, ghost choice: seq<nat>)
    ensures |waypoints| == |stops| + 1
    ensures IsOrdering(choice, |stops|)
    ensures Locations(waypoints[..|stops|]) == Arrange(stops, choice)
    ensures multiset(Locations(waypoints[..|stops|])) == multiset(stops)
    ensures forall k :: 0 <= k < |stops| ==>
      waypoints[k] == StopWaypoint(client, startAddress, waypoints[k].at)
    ensures waypoints[|stops|] == Waypoint(start, startAddress, "0 mi")
    ensures meters == TourCost(client.directions, start, Locations(waypoints[..|stops|]))
    ensures forall p :: IsOrdering(p, |stops|) ==>
      meters <= TourCost(client.directions, start, Arrange(stops, p))
    ensures forall p :: IsOrdering(p, |stops|) && LexLess(p, choice) ==>
      meters < TourCost(client.directions, start, Arrange(stops, p))
    ensures !staticMap.NoWaypoints?
    ensures staticMap.DirectionsFailed? <==>
      client.routeDirections(RequestFor(client.formatNumber, waypoints)).None?
    ensures staticMap.Rendered? ==> staticMap.markers == Join(RedMarkers(client.formatNumber, waypoints), '&')
    ensures staticMap.Rendered? ==>
      && client.routeDirections(RequestFor(client.formatNumber, waypoints)).Some?
      && staticMap.path == PathText(Positions(client.formatNumber,
           Subsample(RoutePoints(client.routeDirections(RequestFor(client.formatNumber, waypoints)).value))))
  {
    var order;
    order, meters, choice := ShortestRoute(client.directions, start, stops);
    waypoints := AssembleWaypoints(client, startAddress, start, order);
    staticMap := DrivenMap(client, waypoints);
  }
}
