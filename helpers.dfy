/**
 * `get_static_map_url` of helpers.py: a labelled marker per waypoint, one
 * directions request for the whole route, its decoded polylines concatenated,
 * and every `step`-th point of them kept for the drawn path.
 */
module Helpers {
  import opened Wrappers
  import opened Text
  import opened Client

  // ----- subsampling the path (`polylines[::step]`) -----

  /** `max_points`: the number of path points the stride aims at. */
  const MaxPoints: nat := 50

  /** `max(len(polylines) // max_points, 1)`. */
  function Stride(n: nat): (step: nat)
    ensures step >= 1
    ensures n < 2 * MaxPoints ==> step == 1
    ensures n >= 2 * MaxPoints ==> MaxPoints * step <= n < MaxPoints * step + MaxPoints
  {
    if n / MaxPoints > 1 then n / MaxPoints else 1
  }

  /** ceil(n / step): how many positions 0, step, 2*step, ... lie below n. */
  function CeilDiv(n: nat, step: nat): nat
    requires step >= 1
    decreases n
  {
    if n == 0 then 0 else if n <= step then 1 else 1 + CeilDiv(n - step, step)
  }

  lemma MulSucc(k: int, step: int)
    ensures (k + 1) * step == k * step + step
  {
  }

  lemma MulMonotone(a: nat, b: nat, c: nat)
    requires a <= b
    ensures a * c <= b * c
  {
  }

  /** CeilDiv is the ceiling: q steps cover n, q - 1 steps do not. */
  lemma {:induction false} CeilDivBounds(n: nat, step: nat)
    requires step >= 1
    ensures CeilDiv(n, step) * step >= n
    ensures n > 0 ==> CeilDiv(n, step) >= 1 && (CeilDiv(n, step) - 1) * step < n
    decreases n
  {
    if n > step {
      CeilDivBounds(n - step, step);
      MulSucc(CeilDiv(n - step, step), step);
      MulSucc(CeilDiv(n - step, step) - 1, step);
    }
  }

  /** `s[::step]`: the elements at positions 0, step, 2*step, ... */
  function EveryNth<T>(s: seq<T>, step: nat): (r: seq<T>)
    requires step >= 1
    ensures |r| == CeilDiv(|s|, step)
    decreases |s|
  {
    if s == [] then []
    else if |s| <= step then [s[0]]
    else [s[0]] + EveryNth(s[step..], step)
  }

  /** Element k of `s[::step]` is `s[k * step]`. */
  lemma {:induction false} EveryNthAt<T>(s: seq<T>, step: nat, k: nat)
    requires step >= 1 && k < |EveryNth(s, step)|
    ensures k * step < |s| && EveryNth(s, step)[k] == s[k * step]
    decreases k
  {
    if k > 0 {
      EveryNthAt(s[step..], step, k - 1);
      MulSucc(k - 1, step);
    }
  }

  /** The reduced polyline of `get_static_map_url`. */
  function Subsample<T>(points: seq<T>): seq<T>
  {
    EveryNth(points, Stride(|points|))
  }

  /**
   * The reduced polyline starts at the first point, leaves fewer than 100 points
   * unchanged, has fewer than 100 points in every case (but may have more than
   * 50), and keeps at least min(n, 50) of the n points.
   */
  lemma SubsampleShape<T>(points: seq<T>)
    ensures points != [] ==> |Subsample(points)| > 0 && Subsample(points)[0] == points[0]
    ensures |points| < 2 * MaxPoints ==> Subsample(points) == points
    ensures |Subsample(points)| < 2 * MaxPoints
    ensures |points| >= MaxPoints ==> |Subsample(points)| >= MaxPoints
  {
    var n, step := |points|, Stride(|points|);
    var r := Subsample(points);
    var q := |r|;
    CeilDivBounds(n, step);
    if n > 0 {
      EveryNthAt(points, step, 0);
    }
    if n < 2 * MaxPoints {
      assert step == 1 && q * 1 >= n && (n > 0 ==> (q - 1) * 1 < n);
      forall k | 0 <= k < n
        ensures r[k] == points[k]
      {
        EveryNthAt(points, 1, k);
      }
    } else {
      assert (q - 1) * step < n < 50 * step + 50;
      if q >= 76 {
        MulMonotone(75, q - 1, step);
        assert false;
      }
      if q < 50 {
        MulMonotone(q, 49, step);
        assert false;
      }
    }
  }

  /** With a hundred points the stride is 2: the path is cut to 50 points. */
  lemma SubsampleHundred<T>(points: seq<T>)
    requires |points| == 100
    ensures |Subsample(points)| == 50
  {
    CeilDivBounds(100, 2);
  }

  /** With 99 points the stride is 1: all 99 are kept, more than `max_points`. */
  lemma SubsampleNinetyNine<T>(points: seq<T>)
    requires |points| == 99
    ensures Subsample(points) == points && |Subsample(points)| == 99
  {
    SubsampleShape(points);
  }

  // ----- markers -----

  /** The marker for waypoint number `i`: blue with label S for the first, red with label `i` after. */
  function MarkerFor(format: real -> string, i: nat, w: Waypoint): string
  {
    if i == 0 then "markers=color:blue|label:S|" + LatLng(format, w.at)
    else "markers=color:red|label:" + Decimal(i) + "|" + LatLng(format, w.at)
  }

  function Markers(format: real -> string, waypoints: seq<Waypoint>): seq<string>
  {
    seq(|waypoints|, i requires 0 <= i < |waypoints| => MarkerFor(format, i, waypoints[i]))
  }

  lemma SplitThree(a: string, b: string, c: string, sep: char)
    requires sep !in a && sep !in b && sep !in c
    ensures Split(a + [sep] + b + [sep] + c, sep) == [a, b, c]
  {
    assert a + [sep] + b + [sep] + c == a + [sep] + (b + [sep] + c);
    SplitAfterPiece(a, sep, b + [sep] + c);
    SplitAfterPiece(b, sep, c);
    SplitWithoutSeparator(c, sep);
  }

  lemma StartMarkerText()
    ensures "markers=color:blue|label:S|" == "markers=color:blue" + ['|'] + "label:S" + ['|']
    ensures '|' !in "markers=color:blue" && '&' !in "markers=color:blue"
    ensures '|' !in "label:S" && '&' !in "label:S"
  {
  }

  lemma StopMarkerText(tag: string)
    ensures "markers=color:red|label:" + tag + "|" == "markers=color:red" + ['|'] + ("label:" + tag) + ['|']
    ensures '|' !in "markers=color:red" && '&' !in "markers=color:red"
    ensures '|' !in "label:" && '&' !in "label:"
  {
  }

  /**
   * A marker reads back as its colour, its label and its position: `S` for the
   * first waypoint, the decimal text of `i` (which `DecimalRoundTrip` turns back
   * into `i`) for the others, and it holds no `&`.
   */
  lemma MarkerFields(format: real -> string, i: nat, w: Waypoint)
    requires FormatsPlainly(format)
    ensures '&' !in MarkerFor(format, i, w)
    ensures Split(MarkerFor(format, i, w), '|')
         == [if i == 0 then "markers=color:blue" else "markers=color:red",
             if i == 0 then "label:S" else "label:" + Decimal(i),
             LatLng(format, w.at)]
  {
    var position := LatLng(format, w.at);
    LatLngPlain(format, w.at);
    if i == 0 {
      StartMarkerText();
      var a, b := "markers=color:blue", "label:S";
      assert MarkerFor(format, i, w) == a + ['|'] + b + ['|'] + position;
      SplitThree(a, b, position, '|');
    } else {
      var tag := Decimal(i);
      assert '|' !in tag && '&' !in tag by {
        assert forall k :: 0 <= k < |tag| ==> IsDigit(tag[k]);
      }
      StopMarkerText(tag);
      var a, b := "markers=color:red", "label:" + tag;
      assert MarkerFor(format, i, w) == a + ['|'] + b + ['|'] + position;
      SplitThree(a, b, position, '|');
    }
  }

  /** The `markers` loop: one marker per waypoint, in waypoint order. */
  method LabelledMarkers(format: real -> string, waypoints: seq<Waypoint>) returns (markers: seq<string>)
    ensures markers == Markers(format, waypoints)
  {
    markers := [];
    for i := 0 to |waypoints|
      invariant markers == Markers(format, waypoints[..i])
    {
      var position := LatLng(format, waypoints[i].at);
      if i == 0 {
        markers := markers + ["markers=color:blue|label:S|" + position];
      } else {
        markers := markers + ["markers=color:red|label:" + Decimal(i) + "|" + position];
      }
    }
    assert waypoints[..|waypoints|] == waypoints;
  }

  /** Joined with `&`, the markers split back into one marker per waypoint, in order. */
  lemma MarkersJoined(format: real -> string, waypoints: seq<Waypoint>)
    requires FormatsPlainly(format) && waypoints != []
    ensures Split(Join(Markers(format, waypoints), '&'), '&') == Markers(format, waypoints)
  {
    var ms := Markers(format, waypoints);
    forall i | 0 <= i < |ms|
      ensures '&' !in ms[i]
    {
      MarkerFields(format, i, waypoints[i]);
    }
    SplitJoin(ms, '&');
  }

  // ----- the directions request for the whole route -----

  /** The positions of the points, formatted. */
  function Positions(format: real -> string, points: seq<Coordinate>): (r: seq<string>)
    ensures |r| == |points|
  {
    seq(|points|, i requires 0 <= i < |points| => LatLng(format, points[i]))
  }

  /** Where the waypoints are, in order. */
  function Locations(waypoints: seq<Waypoint>): (r: seq<Coordinate>)
    ensures |r| == |waypoints|
  {
    seq(|waypoints|, i requires 0 <= i < |waypoints| => waypoints[i].at)
  }

  /** `s[1:-1]`: everything but the first and the last element. */
  function Middle<T>(s: seq<T>): seq<T>
  {
    if |s| < 2 then [] else s[1..|s| - 1]
  }

  /**
   * The request for the whole route: the first waypoint as origin, the last as
   * destination and those between as intermediate points, so that together they
   * list every waypoint once, in order; a single waypoint is both ends.
   */
  function RequestFor(format: real -> string, waypoints: seq<Waypoint>): (request: DirectionsRequest)
    requires waypoints != []
    ensures |waypoints| >= 2 ==>
      [request.origin] + request.waypoints + [request.destination] == Positions(format, Locations(waypoints))
    ensures |waypoints| == 1 ==>
      request.origin == request.destination == LatLng(format, waypoints[0].at) && request.waypoints == []
  {
    DirectionsRequest(
      LatLng(format, waypoints[0].at),
      LatLng(format, waypoints[|waypoints| - 1].at),
      Positions(format, Locations(Middle(waypoints))))
  }

  // ----- the polyline of the route -----

  function StepPoints(step: RouteStep): seq<Coordinate>
  {
    match step.polyline
    case Some(points) => points
    case None => []
  }

  /** The decoded polylines of the steps that have one, in order. */
  function StepsPoints(steps: seq<RouteStep>): seq<Coordinate>
    decreases |steps|
  {
    if steps == [] then [] else StepsPoints(steps[..|steps| - 1]) + StepPoints(steps[|steps| - 1])
  }

  function LegPoints(leg: RouteLeg): seq<Coordinate>
  {
    match leg.steps
    case Some(steps) => StepsPoints(steps)
    case None => []
  }

  /** The decoded polylines of all steps of all legs that have steps, in order. */
  function RoutePoints(legs: seq<RouteLeg>): seq<Coordinate>
    decreases |legs|
  {
    if legs == [] then [] else RoutePoints(legs[..|legs| - 1]) + LegPoints(legs[|legs| - 1])
  }

  /** The points of a route are those of its first `k` legs followed by those of the rest. */
  lemma {:induction false} RoutePointsSplit(legs: seq<RouteLeg>, k: nat)
    requires k <= |legs|
    ensures RoutePoints(legs) == RoutePoints(legs[..k]) + RoutePoints(legs[k..])
    decreases |legs|
  {
    if k < |legs| {
      var n := |legs| - 1;
      var init := legs[..n];
      RoutePointsSplit(init, k);
      assert init[..k] == legs[..k];
      var tail := legs[k..];
      assert tail[..|tail| - 1] == init[k..];
      assert tail[|tail| - 1] == legs[n];
    } else {
      assert legs[..k] == legs;
      assert legs[k..] == [];
    }
  }

  /** The inner `polylines` loop: extend the list with each step's decoded polyline. */
  method AppendStepPolylines(points: seq<Coordinate>, steps: seq<RouteStep>) returns (extended: seq<Coordinate>)
    ensures extended == points + StepsPoints(steps)
  {
    extended := points;
    for j := 0 to |steps|
      invariant extended == points + StepsPoints(steps[..j])
    {
      assert steps[..j + 1][..j] == steps[..j];
      match steps[j].polyline {
        case None =>
        case Some(decoded) =>
          extended := extended + decoded;
      }
    }
    assert steps[..|steps|] == steps;
  }

  /** The `polylines` loops: extend the list with every decoded step polyline, leg after leg. */
  method CollectPolyline(legs: seq<RouteLeg>) returns (points: seq<Coordinate>)
    ensures points == RoutePoints(legs)
  {
    points := [];
    for i := 0 to |legs|
      invariant points == RoutePoints(legs[..i])
    {
      assert legs[..i + 1][..i] == legs[..i];
      match legs[i].steps {
        case None =>
        case Some(steps) =>
          points := AppendStepPolylines(points, steps);
      }
    }
    assert legs[..|legs|] == legs;
  }

  // ----- the drawn path -----

  /** `f'path=color:blue|weight:3|{path_points}'` with the points joined by `|`. */
  function PathText(positions: seq<string>): string
  {
    "path=color:blue|weight:3|" + Join(positions, '|')
  }

  /** The path reads back as its two style fields followed by one field per point, in order. */
  lemma PathFields(positions: seq<string>)
    requires positions != []
    requires forall i :: 0 <= i < |positions| ==> '|' !in positions[i]
    ensures Split(PathText(positions), '|') == ["path=color:blue", "weight:3"] + positions
  {
    var points := Join(positions, '|');
    assert PathText(positions) == "path=color:blue" + ['|'] + ("weight:3" + ['|'] + points);
    SplitAfterPiece("path=color:blue", '|', "weight:3" + ['|'] + points);
    SplitAfterPiece("weight:3", '|', points);
    SplitJoin(positions, '|');
  }

  lemma PositionsPlain(format: real -> string, points: seq<Coordinate>)
    requires FormatsPlainly(format)
    ensures forall i :: 0 <= i < |points| ==>
      '|' !in Positions(format, points)[i] && '&' !in Positions(format, points)[i]
  {
    forall i | 0 <= i < |points|
      ensures '|' !in Positions(format, points)[i] && '&' !in Positions(format, points)[i]
    {
      LatLngPlain(format, points[i]);
    }
  }

  /**
   * The path part shared by both static-map builders: request directions through
   * all waypoints, collect the polyline, keep every `step`-th point, format them.
   * `None` when the directions answer is empty, where the source fails on
   * `directions_result[0]`.
   */
  method RoutePath(client: MapsClient, waypoints: seq<Waypoint>) returns (path: Option<string>)
    requires waypoints != []
    ensures path.None? <==> client.routeDirections(RequestFor(client.formatNumber, waypoints)).None?
    ensures path.Some? ==> path.value == PathText(Positions(client.formatNumber,
      Subsample(RoutePoints(client.routeDirections(RequestFor(client.formatNumber, waypoints)).value))))
  {
    var answer := client.routeDirections(RequestFor(client.formatNumber, waypoints));
    if answer.None? {
      return None;
    }
    var polylines := CollectPolyline(answer.value);
    var reduced := Subsample(polylines);
    path := Some(PathText(Positions(client.formatNumber, reduced)));
  }

  /** What a static-map builder produces: no map, a failed directions request, or its two URL parts. */
  datatype MapOutcome = NoWaypoints | DirectionsFailed | Rendered(markers: string, path: string)

  /**
   * `get_static_map_url(waypoints)`: nothing for no waypoints, before any request
   * is made; otherwise the labelled markers joined by `&`, one per waypoint in
   * order, and the reduced path of the route through all waypoints.
   */
  method StaticMap(client: MapsClient, waypoints: seq<Waypoint>) returns (out: MapOutcome)
    ensures out.NoWaypoints? <==> waypoints == []
    ensures out.DirectionsFailed? <==>
      waypoints != [] && client.routeDirections(RequestFor(client.formatNumber, waypoints)).None?
    ensures out.Rendered? ==> waypoints != [] && out.markers == Join(Markers(client.formatNumber, waypoints), '&')
    ensures out.Rendered? && FormatsPlainly(client.formatNumber) ==>
      Split(out.markers, '&') == Markers(client.formatNumber, waypoints)
    ensures out.Rendered? ==>
      && client.routeDirections(RequestFor(client.formatNumber, waypoints)).Some?
      && out.path == PathText(Positions(client.formatNumber,
           Subsample(RoutePoints(client.routeDirections(RequestFor(client.formatNumber, waypoints)).value))))
  {
    if waypoints == [] {
      return NoWaypoints;
    }
    var markers := LabelledMarkers(client.formatNumber, waypoints);
    var markersText := Join(markers, '&');
    var path := RoutePath(client, waypoints);
    if path.None? {
      return DirectionsFailed;
    }
    out := Rendered(markersText, path.value);
    if FormatsPlainly(client.formatNumber) {
      MarkersJoined(client.formatNumber, waypoints);
    }
  }
}
