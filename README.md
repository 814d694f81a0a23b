# geo route planner — a Dafny model

This project models the route logic of the `geo` web app. The app takes a starting address and a fixed list of hardware stores. It finds the cheapest closed driving tour from the start through every store and back, lists the stops with their addresses and distance texts, and builds a Google Static Maps URL with markers and the driven path. The model covers these parts:

- **The brute-force search** of `get_shortest_route` (app.py). It tries every ordering of the stops in `itertools.permutations` order, sums the driving legs of each closed tour, and keeps the first ordering that is strictly cheaper than the best so far. The best so far starts at infinity, modelled as `None`.
  - The enumeration is written out in `Permutations`, lexicographic by input position. It is proved to produce every ordering and nothing else, exactly n! of them, in strictly increasing lexicographic order, starting with the identity.
  - The search is proved to return an ordering of the stops. Its cost is at most that of every ordering, and every ordering that comes before it in enumeration order is strictly dearer.
- **The per-candidate cost loop** (`Tours`). It includes the source's no-route policy: at the first missing leg the loop breaks. The closing leg back to the start is measured from the last stop actually reached, and a missing closing leg adds nothing.
- **The waypoint list** of the shortest tour: one waypoint per stop in the kept order, then the start with distance `0 mi`.
- **`get_consecutive_route`** (`Consecutive`). It visits the stores in list order and skips a store with no route without moving. It adds one waypoint and that leg's meters for each leg driven.
- **The three static-map builders** (`Helpers.StaticMap` for helpers.py; `App.StraightMap` and `App.DrivenMap` for app.py):
  - the empty guard;
  - the markers, with labels `S`, `1`, `2`, … in helpers.py and unlabelled red markers in app.py, joined by `&`;
  - the split of the whole-route directions request into origin, intermediate points and destination;
  - the concatenation of the decoded step polylines;
  - the `polylines[::max(n // 50, 1)]` subsampling;
  - the `path=color:blue|weight:3|…` parameter.

The Google Maps client is a record of functions (`Client.MapsClient`): directions between two points, directions for a whole route, reverse geocoding, distance-matrix text. It also carries the float-to-text formatting of one number (a latitude or a longitude), which is Python's, not a Maps service; `Client.LatLng` builds a coordinate's `lat,lng` text from it. Nothing about these functions is assumed beyond their types, except what being a function implies: the same question always gets the same answer. The source asks the directions service again for every leg of every ordering (app.py:149, app.py:161), so `Search.ShortestRoute`'s optimality holds for a service that answers consistently. Where a property needs the formatted numbers to be free of `&` and `|`, it says so with `FormatsPlainly`. Distances are meters as `nat`, before the conversion to miles.

Module layout:

| module | what it holds |
|---|---|
| `Wrappers` | `Option` |
| `Text` | `Join`, `Split`, decimal text of a `nat` |
| `Permutations` | orderings of positions, `itertools.permutations` order |
| `Client` | the shapes of the map client's answers |
| `Tours` | tour cost and its loop |
| `Search` | the shortest-tour search |
| `Consecutive` | `get_consecutive_route` |
| `Helpers` | helpers.py |
| `App` | the rest of app.py |

## Model

| member | source | states |
|---|---|---|
| Permutations.Candidates | app.py:144 | The `itertools.permutations` enumeration of n positions lists only orderings of 0..n-1, lists every one of them, in strictly increasing lexicographic order (so each once), n! of them, starting with the identity (so one empty ordering for no stops). |
| Permutations.OrderingsSound | app.py:144 | Every enumerated sequence is a rearrangement of the input. |
| Permutations.OrderingsComplete | app.py:144 | Every rearrangement of the input is enumerated. |
| Permutations.OrderingsSorted | app.py:144 | For increasing input the enumeration is in strictly increasing lexicographic order. |
| Permutations.OrderingsFirst | app.py:144 | The first enumerated ordering is the input itself. |
| Permutations.OrderingsCount | app.py:144 | There are exactly factorial(n) orderings of n elements. |
| Permutations.ApplyPermutes | app.py:144 | Reading the stops through an ordering of their positions gives a list with the same elements, each as often. |
| Permutations.Arrange | app.py:144 | The stop list in the order of a permutation of positions has the stops' length and multiset. |
| Tours.TourDistance | app.py:145-164 | The cost loop for one candidate returns the specified tour cost: legs summed until the first missing one, then the leg back to the start if it exists. |
| Tours.TourCostAtFirstGap | app.py:148-164 | With the first k legs present and leg k missing (or k the number of stops), the cost is the length of those k legs plus the leg from the k-th point back to the start, or nothing for that leg when it has no route. |
| Tours.WalkStopsAtFirstGap | app.py:148-158 | The forward loop stops at the point before the first missing leg, having driven exactly the legs before it. |
| Tours.CompleteTourCost | app.py:145-164 | When every leg of the closed tour exists, the cost is Dist(start,p0) + Dist(p0,p1) + … + Dist(p_last,start). |
| Search.FirstCheapestIsOptimal | app.py:166-168 | A candidate at least as cheap as every enumerated one, and strictly cheaper than every one enumerated before it, is optimal over all orderings and strictly beats every lexicographically smaller ordering. |
| Search.ShortestRoute | app.py:138-168 | The kept order is the stops rearranged by an ordering, its cost is the returned meters, no ordering is cheaper, and every ordering before it in enumeration order is strictly dearer (first-found wins a tie). |
| Search.TwoStopTie | app.py:144-168 | With two stops whose two orders cost the same 4500 m, the search keeps the input order. |
| Consecutive.ConsecutiveRoute | app.py:46-70 | One waypoint per leg driven, each the leg's end location, end address and distance text, in visiting order; the total is the sum of the driven legs' meters. |
| Consecutive.ConsecutiveLegsCount | app.py:51-68 | At most one leg per store, and exactly one per store if and only if every hop from the current position to the next store has a route. |
| Consecutive.ConsecutiveMetersConnected | app.py:51-68 | When no store is skipped, the total is the length of the drive start, store 1, store 2, … in list order. |
| Helpers.Stride | helpers.py:49-50 | The stride is at least 1, is 1 for fewer than 100 points, and otherwise satisfies 50·step ≤ n < 50·step + 50 (floor division by 50). |
| Helpers.EveryNth | helpers.py:51 | `s[::step]` has ceil(n/step) elements. |
| Helpers.EveryNthAt | helpers.py:51 | Element k of `s[::step]` is `s[k*step]`. |
| Helpers.SubsampleShape | helpers.py:48-51 | The reduced polyline keeps the first point, leaves fewer than 100 points unchanged, always has fewer than 100 points, and keeps at least 50 of 50 or more. |
| Helpers.SubsampleHundred | helpers.py:49-51 | 100 points are reduced to 50. |
| Helpers.SubsampleNinetyNine | helpers.py:49-51 | 99 points all stay, more than `max_points`. |
| Helpers.MarkerFields | helpers.py:25-30 | Marker 0 reads back as blue, label S and its position; marker i ≥ 1 as red, label i and its position; no marker holds `&`. |
| Helpers.LabelledMarkers | helpers.py:24-30 | The `markers` loop builds one marker per waypoint, in waypoint order, with the labelling above. |
| Helpers.MarkersJoined | helpers.py:32 | The `&`-joined markers split back into exactly the marker list. |
| Helpers.RequestFor | helpers.py:35-37 | Origin, intermediate points and destination together list every waypoint's position once, in order; one waypoint is both origin and destination with no intermediates. |
| Helpers.AppendStepPolylines | helpers.py:43-46 | The inner loop extends the list with each step's decoded polyline, in step order, skipping steps with none. |
| Helpers.CollectPolyline | helpers.py:40-46 | The `polylines` list is the concatenation, leg by leg and step by step, of all decoded step polylines. |
| Helpers.RoutePointsSplit | helpers.py:40-46 | The collected polyline of a route is the polyline of its first k legs followed by that of the remaining legs, for every k. |
| Helpers.PathFields | helpers.py:54-56 | The path parameter reads back as its two style fields followed by one field per point, in order. |
| Helpers.RoutePath | helpers.py:34-56 | Fails exactly when the directions answer is empty; otherwise the path is the formatted subsample of the collected polyline. |
| Helpers.StaticMap | helpers.py:20-67 | No map exactly for no waypoints (before any request); failure exactly when the route request has no answer; otherwise the joined labelled markers, which split back into one per waypoint, and the reduced path. |
| Text.SplitJoin | helpers.py:32 | Joining pieces that avoid the separator and splitting again gives the pieces back. |
| Text.DecimalRoundTrip | helpers.py:30 | The decimal text of a marker number reads back as that number. |
| App.RedMarkersJoined | app.py:76 | The `&`-joined red markers split back into one marker per waypoint, in order. |
| App.StraightMap | app.py:72-87 | No map exactly for no waypoints, never a failure; otherwise the `&`-joined red markers and the path text of the waypoint positions, which split back into one red marker per waypoint and the two style fields followed by one path point per waypoint, in waypoint order. |
| App.DrivenMap | app.py:89-128 | As `Helpers.StaticMap`, with unlabelled red markers. |
| App.AssembleWaypoints | app.py:172-178 | One waypoint per stop in the kept order, each with the stop's reverse-geocoded address and the distance text from the start address, then the start once with `0 mi`; length stops + 1. |
| App.GetShortestRoute | app.py:131-184 | End to end: the waypoint shape above, the stops rearranged by an optimal ordering that is first among the optimal ones, the kept tour's cost, and the driven-route map of those waypoints. |

## Left out

- `index`, the Flask route and template rendering (app.py:28-35): web glue.
- Geocoding of the store list and the start address (app.py:38-44, helpers.py:11-17). Coordinates are inputs. A failed geocode, which the source turns into `None` and then passes to the directions service, is not modelled.
- The Google Maps services are function parameters. Their network behaviour, errors other than an empty answer, and quotas are not modelled.
- A two-point directions answer is taken to have exactly one leg, or to be empty (`Option<Leg>`). Two other kinds of answer are not modelled, and in the source they behave differently from both cases above:
  - **A non-empty answer with no legs** (no `legs` key, or an empty list):
    - in `get_shortest_route`, the loop neither breaks nor moves the current position, adds no meters, and goes on to the next stop (app.py:151-158);
    - in `get_consecutive_route`, it adds no waypoint and no meters but still moves the position on to that store (app.py:57-68).
  - **An answer with several legs:** both functions add every leg's meters. `get_shortest_route` moves to the stop (app.py:156-158). `get_consecutive_route` appends one waypoint per leg (app.py:58-66).
- Helpers.RoutePath: a whole-route directions answer is `None` (empty) or the legs of its first route, each with or without steps. A non-empty answer whose first route has no `legs` key raises `KeyError` in the source (helpers.py:41, app.py:102); the model's answer type cannot express it.
- `googlemaps.convert.decode_polyline` (app.py:106, helpers.py:45): steps carry their decoded point list.
- The meters-to-miles conversion and `round(…, 2)` (app.py:25, app.py:70, app.py:184) are floating point. Totals stay in meters. `float` sums of whole meters are exact integers here.
- The formatting of latitudes and longitudes into text is an opaque function. `urlencode`, the fixed URL parameters and the final URL string (app.py:79-86, app.py:119-127, helpers.py:58-66) are left out; the model stops at the markers and path parts.
- The API key, `load_dotenv` and the module-level clients (app.py:9-14, helpers.py:6-9), and the `print` diagnostics.
- App.AssembleWaypoints, App.GetShortestRoute: app.py:175 raises `KeyError` when the distance-matrix element has no `distance` (status `ZERO_RESULTS` or `NOT_FOUND`), and `get_shortest_route` then returns nothing. The model's `distanceText` always answers, so these members still return waypoints, meters and a map.
- `gmaps.reverse_geocode(...)[0]` on an empty answer raises in the source (app.py:174); the model takes a reverse-geocoding function that always answers.
- The fixed five-address store list (app.py:17-23) is a parameter `stops` of any length.
- Helpers.StaticMap, App.DrivenMap, App.GetShortestRoute: `directions_result[0]` on an empty answer raises in the source (helpers.py:41, app.py:102), and in `get_shortest_route` the exception escapes (app.py:182), so nothing is returned. The model returns `DirectionsFailed` as the map instead. `App.GetShortestRoute` then still returns its waypoints and meters.
- Search.ShortestRoute: optimality and the tie-break are stated over orderings of stop positions, as `itertools.permutations` works. With duplicate coordinates in the stop list, several orderings give the same route.

Behaviour of the code that a reader might expect to be otherwise, modelled as the code has it:

- **No-route policy in the search.** One might expect a missing forward leg to count as zero and the loop to carry on, or the ordering to be rejected. Instead the loop breaks. The return leg is then measured from the last stop reached. An ordering that cannot be driven can therefore come out cheaper than a complete one (`Tours.TourCostAtFirstGap`).
- **Distance texts.** One might expect each stop's distance text to be measured from the previous stop. It is measured from the starting address.
- **Waypoint list shape.** One might expect the route to begin with the start. The list is stops + 1 long, with the start last and not in front.
- **Path length.** One might expect `max_points = 50` to cap the path at 50 points. It does not: fewer than 100 points pass unchanged.
- **No stops.** One might expect an empty route and zero distance. The code does not short-circuit. `itertools.permutations([])` yields one empty ordering, so the total is the start-to-start leg (app.py:161-164), and the result is the single start waypoint with `0 mi` (app.py:178). The model does the same (`Permutations.Candidates` with n = 0).
- **Number of stops.** One might expect a bound on the number of stops, since the search tries n! orderings. None is enforced.
