/**
 * What the route code sees of the Google Maps client: the shapes of its answers
 * and the client itself as a record of functions.  The services are opaque here;
 * the model only fixes how their answers are used.
 */
module Client {
  import opened Wrappers

  /** A geocoded point: latitude and longitude, compared by value. */
  datatype Coordinate = Coordinate(lat: real, lng: real)

  /**
   * The one leg of a driving-directions answer between two points: its length in
   * meters (`distance.value`), its human-readable length (`distance.text`), and
   * where and at which address it ends.
   */
  datatype Leg = Leg(meters: nat, text: string, endLocation: Coordinate, endAddress: string)

  /** `gmaps.directions(a, b, mode='driving')`: `None` when the answer list is empty (no route). */
  type Directions = (Coordinate, Coordinate) -> Option<Leg>

  /** One entry of a route: where it is, its address, and the distance text shown for it. */
  datatype Waypoint = Waypoint(at: Coordinate, address: string, distance: string)

  /** A step of a multi-waypoint route, with its polyline already decoded when it has one. */
  datatype RouteStep = RouteStep(polyline: Option<seq<Coordinate>>)

  /** A leg of a multi-waypoint route; `steps` is `None` when the leg has no `steps` key. */
  datatype RouteLeg = RouteLeg(steps: Option<seq<RouteStep>>)

  /** The arguments of `gmaps.directions(origin, destination, waypoints=...)` over formatted points. */
  datatype DirectionsRequest = DirectionsRequest(origin: string, destination: string, waypoints: seq<string>)

  /**
   * The module-level `gmaps` client, one function per service the route code
   * calls, together with Python's float-to-text formatting of one number
   * (`formatNumber`), which the route code applies to each latitude and longitude.
   */
  datatype MapsClient = MapsClient(
    directions: Directions,
    routeDirections: DirectionsRequest -> Option<seq<RouteLeg>>,
    reverseGeocode: Coordinate -> string,
    distanceText: (string, string) -> string,
    formatNumber: real -> string)

  /** `f'{lat},{lng}'`, with the float formatting left to `format`. */
  function LatLng(format: real -> string, c: Coordinate): string
  {
    format(c.lat) + "," + format(c.lng)
  }

  /** The formatted number never holds the URL separators `&` and `|` (true of Python's float text). */
  ghost predicate FormatsPlainly(format: real -> string)
  {
    forall x :: '&' !in format(x) && '|' !in format(x)
  }

  lemma LatLngPlain(format: real -> string, c: Coordinate)
    requires FormatsPlainly(format)
    ensures '&' !in LatLng(format, c) && '|' !in LatLng(format, c)
  {
    assert '&' !in format(c.lat) && '|' !in format(c.lat);
    assert '&' !in format(c.lng) && '|' !in format(c.lng);
  }
}
