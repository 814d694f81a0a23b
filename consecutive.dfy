/**
 * `get_consecutive_route`: visit the stores in list order from the start; a store
 * with no route is skipped and the current position stays where it was; every
 * leg driven adds one waypoint (where the leg ends) and its meters to the total.
 */
module Consecutive {
  import opened Wrappers
  import opened Client
  import opened Tours

  /** The legs driven when visiting `stores` in order from `at`, skipping those with no route. */
  function ConsecutiveLegs(directions: Directions, at: Coordinate, stores: seq<Coordinate>): seq<Leg>
    decreases |stores|
  {
    if stores == [] then []
    else match directions(at, stores[0])
      case None => ConsecutiveLegs(directions, at, stores[1..])
      case Some(leg) => [leg] + ConsecutiveLegs(directions, stores[0], stores[1..])
  }

  /** The sum of the meters of `legs`. */
  function LegsMeters(legs: seq<Leg>): nat
    decreases |legs|
  {
    if legs == [] then 0 else LegsMeters(legs[..|legs| - 1]) + legs[|legs| - 1].meters
  }

  /** The waypoint appended for a leg: its end location, end address and distance text. */
  function LegWaypoint(leg: Leg): Waypoint
  {
    Waypoint(leg.endLocation, leg.endAddress, leg.text)
  }

  /** At most one leg per store, and one per store exactly when no store is skipped. */
  lemma {:induction false} ConsecutiveLegsCount(directions: Directions, at: Coordinate, stores: seq<Coordinate>)
    ensures |ConsecutiveLegs(directions, at, stores)| <= |stores|
    ensures |ConsecutiveLegs(directions, at, stores)| == |stores| <==> Connected(directions, [at] + stores)
    decreases |stores|
  {
    if stores != [] {
      var rest := stores[1..];
      ConsecutiveLegsCount(directions, at, rest);
      ConsecutiveLegsCount(directions, stores[0], rest);
      assert [stores[0]] + rest == stores;
      assert ([at] + stores)[1..] == stores;
      assert ([at] + stores)[0] == at && ([at] + stores)[1] == stores[0];
      if Connected(directions, stores) {
        forall i | 0 <= i < |[at] + stores| - 1 && i > 0
          ensures directions(([at] + stores)[i], ([at] + stores)[i + 1]).Some?
        {
          assert ([at] + stores)[i] == stores[i - 1] && ([at] + stores)[i + 1] == stores[i];
        }
      }
      if Connected(directions, [at] + stores) {
        forall i | 0 <= i < |stores| - 1
          ensures directions(stores[i], stores[i + 1]).Some?
        {
          assert ([at] + stores)[i + 1] == stores[i] && ([at] + stores)[i + 2] == stores[i + 1];
        }
      }
    }
  }

  lemma LegsMetersAppend(legs: seq<Leg>, leg: Leg)
    ensures LegsMeters(legs + [leg]) == LegsMeters(legs) + leg.meters
  {
    assert (legs + [leg])[..|legs|] == legs;
  }

  /** When no store is skipped, the total is the length of the drive start, store 1, store 2, ... */
  lemma {:induction false} ConsecutiveMetersConnected(directions: Directions, at: Coordinate, stores: seq<Coordinate>)
    requires Connected(directions, [at] + stores)
    ensures LegsMeters(ConsecutiveLegs(directions, at, stores)) == PathMeters(directions, [at] + stores)
    decreases |stores|
  {
    if stores != [] {
      var points := [at] + stores;
      PathMetersFirstLeg(directions, points);
      assert points[1..] == stores == [stores[0]] + stores[1..];
      assert points[0] == at && points[1] == stores[0];
      ConsecutiveMetersConnected(directions, stores[0], stores[1..]);
      var leg := directions(at, stores[0]).value;
      LegsMetersPrepend(leg, ConsecutiveLegs(directions, stores[0], stores[1..]));
    }
  }

  lemma {:induction false} LegsMetersPrepend(leg: Leg, legs: seq<Leg>)
    ensures LegsMeters([leg] + legs) == leg.meters + LegsMeters(legs)
    decreases |legs|
  {
    if legs != [] {
      var init := legs[..|legs| - 1];
      LegsMetersPrepend(leg, init);
      assert ([leg] + legs)[..|legs|] == [leg] + init;
    }
  }

  lemma ConsecutiveLegsStep(directions: Directions, at: Coordinate, stores: seq<Coordinate>, i: nat)
    requires i < |stores|
    ensures ConsecutiveLegs(directions, at, stores[i..])
         == match directions(at, stores[i])
            case None => ConsecutiveLegs(directions, at, stores[i + 1..])
            case Some(leg) => [leg] + ConsecutiveLegs(directions, stores[i], stores[i + 1..])
  {
    assert stores[i..][0] == stores[i] && stores[i..][1..] == stores[i + 1..];
  }

  /**
   * The loop of `get_consecutive_route`: one waypoint per leg driven, in order,
   * and the total of the driven legs' meters (before the conversion to miles).
   */
  method ConsecutiveRoute(directions: Directions, start: Coordinate, stores: seq<Coordinate>)
    returns (waypoints: seq<Waypoint>, meters: nat)
    ensures |waypoints| == |ConsecutiveLegs(directions, start, stores)| <= |stores|
    ensures forall k :: 0 <= k < |waypoints| ==>
      waypoints[k] == LegWaypoint(ConsecutiveLegs(directions, start, stores)[k])
    ensures meters == LegsMeters(ConsecutiveLegs(directions, start, stores))
  {
    waypoints := [];
    meters := 0;
    var current := start;
    ghost var driven: seq<Leg> := [];
    for i := 0 to |stores|
      invariant ConsecutiveLegs(directions, start, stores)
             == driven + ConsecutiveLegs(directions, current, stores[i..])
      invariant |waypoints| == |driven|
      invariant forall k :: 0 <= k < |driven| ==> waypoints[k] == LegWaypoint(driven[k])
      invariant meters == LegsMeters(driven)
    {
      ConsecutiveLegsStep(directions, current, stores, i);
      var answer := directions(current, stores[i]);
      if answer.None? {
        continue;
      }
      var leg := answer.value;
      LegsMetersAppend(driven, leg);
      driven := driven + [leg];
      meters := meters + leg.meters;
      waypoints := waypoints + [LegWaypoint(leg)];
      current := stores[i];
    }
    assert stores[|stores|..] == [];
    assert ConsecutiveLegs(directions, start, stores) == driven;
    ConsecutiveLegsCount(directions, start, stores);
  }
}
