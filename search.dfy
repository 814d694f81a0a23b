/**
 * The brute-force search of `get_shortest_route`: try every ordering of the stops
 * in `itertools.permutations` order, keep the first one whose closed-tour cost is
 * strictly below the best so far (which starts at infinity).
 */
module Search {
  import opened Wrappers
  import opened Client
  import opened Permutations
  import opened Tours

  /**
   * What the search leaves behind: if every enumerated candidate costs at least
   * `meters` and every one before `pick` costs more, the kept one is optimal over
   * every ordering and lexicographically first among the optimal ones.
   */
  lemma FirstCheapestIsOptimal(directions: Directions, start: Coordinate, stops: seq<Coordinate>, pick: nat, meters: nat)
    requires pick < |Candidates(|stops|)|
    requires forall i :: 0 <= i < |Candidates(|stops|)| ==>
      meters <= TourCost(directions, start, Arrange(stops, Candidates(|stops|)[i]))
    requires forall i :: 0 <= i < pick ==>
      meters < TourCost(directions, start, Arrange(stops, Candidates(|stops|)[i]))
    ensures forall p :: IsOrdering(p, |stops|) ==>
      meters <= TourCost(directions, start, Arrange(stops, p))
    ensures forall p :: IsOrdering(p, |stops|) && LexLess(p, Candidates(|stops|)[pick]) ==>
      meters < TourCost(directions, start, Arrange(stops, p))
  {
    var all := Candidates(|stops|);
    forall p | IsOrdering(p, |stops|)
      ensures meters <= TourCost(directions, start, Arrange(stops, p))
      ensures LexLess(p, all[pick]) ==> meters < TourCost(directions, start, Arrange(stops, p))
    {
      var i :| 0 <= i < |all| && all[i] == p;
      if LexLess(p, all[pick]) {
        if i == pick {
          LexIrreflexive(p);
        } else if pick < i {
          LexAsymmetric(all[pick], p);
        }
      }
    }
  }

  /**
   * `get_shortest_route` up to the waypoint list: the kept order, its cost in
   * meters (before the conversion to miles), and, as a ghost, the ordering of
   * positions it was read from.  The kept order rearranges the stops, its cost is
   * at most that of every ordering, and every ordering before it in
   * lexicographic order costs strictly more.
   */
  method ShortestRoute(directions: Directions, start: Coordinate, stops: seq<Coordinate>)
    returns (order: seq<Coordinate>, meters: nat, ghost choice: seq<nat>)
    ensures IsOrdering(choice, |stops|)
    ensures order == Arrange(stops, choice)
    ensures |order| == |stops| && multiset(order) == multiset(stops)
    ensures meters == TourCost(directions, start, order)
    ensures forall p :: IsOrdering(p, |stops|) ==>
      meters <= TourCost(directions, start, Arrange(stops, p))
    ensures forall p :: IsOrdering(p, |stops|) && LexLess(p, choice) ==>
      meters < TourCost(directions, start, Arrange(stops, p))
  {
    var candidates := Candidates(|stops|);
    var minimum: Option<nat> := None;  // float('inf')
    order := [];
    ghost var pick := 0;
    choice := [];
    for j := 0 to |candidates|
      invariant minimum.None? <==> j == 0
      invariant minimum.Some? ==> pick < j && choice == candidates[pick]
      invariant minimum.Some? ==> order == Arrange(stops, choice)
      invariant minimum.Some? ==> minimum.value == TourCost(directions, start, order)
      invariant minimum.Some? ==> forall i :: 0 <= i < j ==>
        minimum.value <= TourCost(directions, start, Arrange(stops, candidates[i]))
      invariant minimum.Some? ==> forall i :: 0 <= i < pick ==>
        minimum.value < TourCost(directions, start, Arrange(stops, candidates[i]))
    {
      var perm := Arrange(stops, candidates[j]);
      var total := TourDistance(directions, start, perm);
      if minimum.None? || total < minimum.value {
        minimum := Some(total);
        order := perm;
        pick := j;
        choice := candidates[j];
      }
    }
    meters := minimum.value;
    FirstCheapestIsOptimal(directions, start, stops, pick, meters);
  }

  /**
   * Directions for three points on a line: A at 0, B at 1, C at 2, with
   * A-B 1000 m, B-C 500 m and A-C 3000 m both ways.
   */
  function LineDirections(from: Coordinate, to: Coordinate): Option<Leg>
  {
    if from == to then None
    else
      var ends := {from.lat, to.lat};
      var meters := if ends == {0.0, 1.0} then 1000 else if ends == {1.0, 2.0} then 500 else 3000;
      Some(Leg(meters, "", to, ""))
  }

  /** Both ways round the line cost 1000 + 500 + 3000 metres. */
  lemma LineTours()
    ensures TourCost(LineDirections, Coordinate(0.0, 0.0), [Coordinate(1.0, 0.0), Coordinate(2.0, 0.0)]) == 4500
    ensures TourCost(LineDirections, Coordinate(0.0, 0.0), [Coordinate(2.0, 0.0), Coordinate(1.0, 0.0)]) == 4500
  {
    var a, b, c := Coordinate(0.0, 0.0), Coordinate(1.0, 0.0), Coordinate(2.0, 0.0);
    assert {c.lat, a.lat} == {0.0, 2.0} && {b.lat, c.lat} == {1.0, 2.0} && {a.lat, b.lat} == {0.0, 1.0};
    assert {c.lat, b.lat} == {1.0, 2.0} && {b.lat, a.lat} == {0.0, 1.0} && {a.lat, c.lat} == {0.0, 2.0};
    assert Walk(LineDirections, b, [c]) == (c, 500) by { assert [c][1..] == []; }
    assert Walk(LineDirections, c, [b]) == (b, 500) by { assert [b][1..] == []; }
    assert Walk(LineDirections, a, [b, c]) == (c, 1500) by { assert [b, c][1..] == [c]; }
    assert Walk(LineDirections, a, [c, b]) == (b, 3500) by { assert [c, b][1..] == [b]; }
  }

  /** The two orderings of two stops, and what they arrange. */
  lemma TwoOrderings(choice: seq<nat>, b: Coordinate, c: Coordinate)
    requires IsOrdering(choice, 2)
    ensures choice == [0, 1] || choice == [1, 0]
    ensures IsOrdering([0, 1], 2) && Arrange([b, c], [0, 1]) == [b, c]
    ensures choice == [1, 0] ==> Arrange([b, c], choice) == [c, b] && LexLess([0, 1], choice)
  {
    assert Range(2) == [0, 1];
    OrderingInRange(choice, 2);
    assert IsOrdering([0, 1], 2);
  }

  /**
   * Start A, stops [B, C]: both orders cost 4500 m, and the search keeps
   * [B, C], the order it tries first.
   */
  method TwoStopTie() returns (order: seq<Coordinate>, meters: nat)
    ensures order == [Coordinate(1.0, 0.0), Coordinate(2.0, 0.0)] && meters == 4500
  {
    var a, b, c := Coordinate(0.0, 0.0), Coordinate(1.0, 0.0), Coordinate(2.0, 0.0);
    ghost var choice;
    order, meters, choice := ShortestRoute(LineDirections, a, [b, c]);
    LineTours();
    TwoOrderings(choice, b, c);
  }
}
