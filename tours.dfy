/**
 * The cost of one candidate tour in `get_shortest_route`: drive from the start
 * through the stops in the candidate's order, stop at the first stop that has no
 * route, then drive back to the start from wherever the walk stopped.
 */
module Tours {
  import opened Wrappers
  import opened Client

  /** The meters a directions answer contributes: its leg's, or nothing when there is no route. */
  function MetersOf(answer: Option<Leg>): nat
  {
    match answer
    case Some(leg) => leg.meters
    case None => 0
  }

  /** Every consecutive pair of `points` has a route. */
  predicate Connected(directions: Directions, points: seq<Coordinate>)
  {
    forall i :: 0 <= i < |points| - 1 ==> directions(points[i], points[i + 1]).Some?
  }

  /** The length in meters of the drive through `points`, leg by leg, last leg last. */
  function PathMeters(directions: Directions, points: seq<Coordinate>): nat
    requires Connected(directions, points)
    decreases |points|
  {
    if |points| < 2 then 0
    else
      assert Connected(directions, points[..|points| - 1]);
      PathMeters(directions, points[..|points| - 1])
        + directions(points[|points| - 2], points[|points| - 1]).value.meters
  }

  /**
   * The forward part of a candidate tour from `at` through `rest`: the meters
   * driven up to the first stop with no route, and the point where the drive stopped.
   */
  function Walk(directions: Directions, at: Coordinate, rest: seq<Coordinate>): (Coordinate, nat)
    decreases |rest|
  {
    if rest == [] then (at, 0)
    else match directions(at, rest[0])
      case None => (at, 0)
      case Some(leg) =>
        var (last, meters) := Walk(directions, rest[0], rest[1..]);
        (last, leg.meters + meters)
  }

  /** The total the search compares for the candidate `order`: the forward walk plus the closing leg. */
  function TourCost(directions: Directions, start: Coordinate, order: seq<Coordinate>): nat
  {
    var (last, forward) := Walk(directions, start, order);
    forward + MetersOf(directions(last, start))
  }

  /** The drive through `points` splits into its first leg and the rest. */
  lemma {:induction false} PathMetersFirstLeg(directions: Directions, points: seq<Coordinate>)
    requires |points| >= 2 && Connected(directions, points)
    ensures Connected(directions, points[1..])
    ensures PathMeters(directions, points)
         == directions(points[0], points[1]).value.meters + PathMeters(directions, points[1..])
    decreases |points|
  {
    var n := |points|;
    assert Connected(directions, points[1..]);
    if n > 2 {
      var init := points[..n - 1];
      assert Connected(directions, init);
      PathMetersFirstLeg(directions, init);
      assert init[1..] == points[1..][..n - 2];
    }
  }

  /**
   * The forward walk in closed form: with `points` the start followed by the order,
   * if the first `k` legs have a route and leg `k` has none (or there is no leg `k`),
   * the walk stops at `points[k]` after driving exactly those `k` legs.
   */
  lemma {:induction false} WalkStopsAtFirstGap(directions: Directions, start: Coordinate, order: seq<Coordinate>, k: nat)
    requires k <= |order|
    requires Connected(directions, ([start] + order)[..k + 1])
    requires k < |order| ==> directions(([start] + order)[k], order[k]).None?
    ensures Walk(directions, start, order) == (([start] + order)[k], PathMeters(directions, ([start] + order)[..k + 1]))
    decreases |order|
  {
    var points := [start] + order;
    if order == [] || k == 0 {
      assert points[..k + 1] == [start];
    } else {
      assert points[..k + 1][0] == start && points[..k + 1][1] == order[0];
      var leg := directions(start, order[0]).value;
      assert [order[0]] + order[1..] == order;
      var prefix := ([order[0]] + order[1..])[..k];
      assert prefix == points[..k + 1][1..];
      PathMetersFirstLeg(directions, points[..k + 1]);
      WalkStopsAtFirstGap(directions, order[0], order[1..], k - 1);
    }
  }

  /**
   * The no-route policy of the search: the cost of a candidate is the length of
   * its legs up to the first missing one, plus the leg from the last stop actually
   * reached back to the start, which adds nothing when it has no route either.
   */
  lemma TourCostAtFirstGap(directions: Directions, start: Coordinate, order: seq<Coordinate>, k: nat)
    requires k <= |order|
    requires Connected(directions, ([start] + order)[..k + 1])
    requires k < |order| ==> directions(([start] + order)[k], order[k]).None?
    ensures TourCost(directions, start, order)
         == PathMeters(directions, ([start] + order)[..k + 1])
          + MetersOf(directions(([start] + order)[k], start))
  {
    WalkStopsAtFirstGap(directions, start, order, k);
  }

  /**
   * When every leg of the closed tour has a route, the cost of a candidate is
   * Dist(start, p0) + Dist(p0, p1) + ... + Dist(p_last, start).
   */
  lemma CompleteTourCost(directions: Directions, start: Coordinate, order: seq<Coordinate>)
    requires Connected(directions, [start] + order + [start])
    ensures TourCost(directions, start, order) == PathMeters(directions, [start] + order + [start])
  {
    var points := [start] + order;
    var cycle := points + [start];
    assert cycle[..|cycle| - 1] == points == points[..|order| + 1];
    assert Connected(directions, points);
    WalkStopsAtFirstGap(directions, start, order, |order|);
  }

  /**
   * The inner loop of `get_shortest_route` for one candidate: sum the legs from the
   * start through the stops, break at the first stop with no route, and add the
   * leg back to the start when it exists.
   */
  method TourDistance(directions: Directions, start: Coordinate, order: seq<Coordinate>) returns (total: nat)
    ensures total == TourCost(directions, start, order)
  {
    total := 0;
    var current := start;
    var i := 0;
    while i < |order|
      invariant i <= |order|
      invariant Walk(directions, start, order)
             == (Walk(directions, current, order[i..]).0, total + Walk(directions, current, order[i..]).1)
    {
      var answer := directions(current, order[i]);
      if answer.None? {
        break;
      }
      assert order[i..][1..] == order[i + 1..];
      total := total + answer.value.meters;
      current := order[i];
      i := i + 1;
    }
    assert Walk(directions, current, order[i..]) == (current, 0);
    var back := directions(current, start);
    if back.Some? {
      total := total + back.value.meters;
    }
  }
}
