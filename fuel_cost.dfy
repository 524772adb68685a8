/**
 * The fuel cost of a towing route in the FastAPI optimizer (api/app.py).
 * A route's cost sums one fuel term per leg, and each leg's term reads only
 * the waypoint the leg departs from: the leg's great-circle distance is
 * computed and then discarded.
 */
module FuelCost {
  /** One stop of a towing route, with the attributes of the leg leaving it. */
  datatype Waypoint = Waypoint(
    latitude: real,
    longitude: real,
    towSize: real,
    enginePower: real,
    towingSpeed: real,
    windSpeed: real,
    waveHeight: real)

  type Route = seq<Waypoint>

  /** Specific fuel consumption. */
  const Sfc: real := 0.2
  /** Engine efficiency. */
  const EngineEfficiency: real := 0.85

  /** The attributes a leg's fuel grows with are all non-negative. */
  predicate NonNegativeAttributes(w: Waypoint)
  {
    w.enginePower >= 0.0 && w.towSize >= 0.0 && w.towingSpeed >= 0.0 && w.windSpeed >= 0.0 && w.waveHeight >= 0.0
  }

  /** The fuel consumed on the leg that departs from `w`, whatever its
      length: the engine power scaled by an environmental factor of at least
      1 and divided by sfc times efficiency, so at least the calm-water fuel
      power / (sfc * efficiency) when the attributes are non-negative. */
  function LegFuel(w: Waypoint): (fuel: real)
    ensures NonNegativeAttributes(w) ==> w.enginePower / (Sfc * EngineEfficiency) <= fuel
  {
    var factor := 1.0 + w.towSize / 1000.0 + w.windSpeed / 10.0 + w.waveHeight / 10.0 + w.towingSpeed / 10.0;
    assert NonNegativeAttributes(w) ==> w.enginePower <= w.enginePower * factor;
    w.enginePower * factor / (Sfc * EngineEfficiency)
  }

  /** The cost of a route: the leg terms of legs 0 .. |route| - 2, summed in
      the order the loop adds them. */
  function RouteCost(route: Route): real
  {
    if |route| < 2 then 0.0
    else RouteCost(route[..|route| - 1]) + LegFuel(route[|route| - 2])
  }

  /** The fuel of every waypoint in `ws` as a departure point. */
  function DepartureSum(ws: seq<Waypoint>): real
  {
    if ws == [] then 0.0 else DepartureSum(ws[..|ws| - 1]) + LegFuel(ws[|ws| - 1])
  }

  /**
   * cost_function: walks the legs of `route`, computes each leg's
   * great-circle distance (with the injected `greatCircle`) and adds the
   * departing waypoint's fuel. The total is the route's cost whatever
   * `greatCircle` returns.
   */
  method CostFunction(route: Route, greatCircle: (Waypoint, Waypoint) -> real) returns (totalCost: real)
    ensures totalCost == RouteCost(route)
    ensures |route| < 2 ==> totalCost == 0.0
    ensures |route| >= 1 ==> totalCost == DepartureSum(route[..|route| - 1])
  {
    totalCost := 0.0;
    var i := 0;
    while i < |route| - 1
      invariant 0 <= i && (|route| == 0 ==> i == 0 && totalCost == 0.0)
      invariant |route| > 0 ==> i <= |route| - 1 && totalCost == RouteCost(route[..i + 1])
    {
      var distance := greatCircle(route[i], route[i + 1]);
      var fuelConsumption := LegFuel(route[i]);
      assert route[..i + 2][..i + 1] == route[..i + 1];
      totalCost := totalCost + fuelConsumption;
      i := i + 1;
    }
    if |route| > 0 {
      assert route[..i + 1] == route;
      CostIsDepartureSum(route);
    }
  }

  /** The cost of a non-empty route is the departure fuel of every waypoint
      but the last. */
  lemma {:induction false} CostIsDepartureSum(route: Route)
    requires |route| >= 1
    ensures RouteCost(route) == DepartureSum(route[..|route| - 1])
  {
    if |route| >= 2 {
      var front := route[..|route| - 1];
      CostIsDepartureSum(front);
      assert front[..|front| - 1] == route[..|route| - 2];
      assert route[..|route| - 1][..|route| - 2] == route[..|route| - 2];
    }
  }

  /** Taking one waypoint out of a sequence takes its fuel out of the sum. */
  lemma {:induction false} DepartureSumRemove(ws: seq<Waypoint>, j: nat)
    requires j < |ws|
    ensures DepartureSum(ws) == DepartureSum(ws[..j] + ws[j + 1..]) + LegFuel(ws[j])
  {
    var n := |ws|;
    if j < n - 1 {
      var front := ws[..n - 1];
      DepartureSumRemove(front, j);
      var rest := ws[..j] + ws[j + 1..];
      assert rest[..|rest| - 1] == front[..j] + front[j + 1..];
      assert rest[|rest| - 1] == ws[n - 1];
    } else {
      assert ws[..j] + ws[j + 1..] == ws[..n - 1];
    }
  }

  /** The departure sum does not depend on the order of the waypoints. */
  lemma {:induction false} DepartureSumPermutation(a: seq<Waypoint>, b: seq<Waypoint>)
    requires multiset(a) == multiset(b)
    ensures DepartureSum(a) == DepartureSum(b)
    decreases |a|
  {
    if a != [] {
      var last := a[|a| - 1];
      assert last in multiset(b);
      var j :| 0 <= j < |b| && b[j] == last;
      DepartureSumRemove(b, j);
      var rest := b[..j] + b[j + 1..];
      assert b == b[..j] + [b[j]] + b[j + 1..];
      assert a == a[..|a| - 1] + [last];
      assert multiset(rest) == multiset(b[..j]) + multiset(b[j + 1..]);
      assert multiset(b) == multiset(rest) + multiset{last};
      assert multiset(a) == multiset(a[..|a| - 1]) + multiset{last};
      assert multiset(a[..|a| - 1]) == multiset(a) - multiset{last} == multiset(rest);
      DepartureSumPermutation(a[..|a| - 1], rest);
    } else {
      assert |b| == |multiset(b)| == 0;
    }
  }

  /** Among the orderings of one set of waypoints, the cost depends only on
      which waypoint comes last: it is the departure fuel of all of them
      minus that of the last one. */
  lemma CostDeterminedByLast(waypoints: seq<Waypoint>, route: Route)
    requires multiset(route) == multiset(waypoints) && |route| >= 1
    ensures RouteCost(route) == DepartureSum(waypoints) - LegFuel(route[|route| - 1])
  {
    CostIsDepartureSum(route);
    DepartureSumRemove(route, |route| - 1);
    assert route[..|route| - 1] + route[|route|..] == route[..|route| - 1];
    DepartureSumPermutation(route, waypoints);
  }

  /** Two orderings of the same waypoints that end at the same waypoint cost
      the same. */
  lemma SameLastSameCost(a: Route, b: Route)
    requires multiset(a) == multiset(b) && |a| >= 1
    requires a[|a| - 1] == b[|b| - 1]
    ensures RouteCost(a) == RouteCost(b)
  {
    assert |b| == |multiset(b)| == |a|;
    CostDeterminedByLast(a, a);
    CostDeterminedByLast(a, b);
  }

  /** A route whose waypoints all burn the same fuel per leg costs that much
      per leg, in every order. */
  lemma {:induction false} UniformFuelCost(route: Route, perLeg: real)
    requires forall k :: 0 <= k < |route| ==> LegFuel(route[k]) == perLeg
    ensures RouteCost(route) == if |route| < 2 then 0.0 else (|route| - 1) as real * perLeg
  {
    if |route| >= 2 {
      UniformFuelCost(route[..|route| - 1], perLeg);
    }
  }

  /** Three waypoints with engine power 100 and every other attribute 0 cost
      two legs of 100 / (0.2 * 0.85) in every order. */
  lemma ThreeCalmWaypoints(a: Waypoint, b: Waypoint, c: Waypoint, route: Route)
    requires a.enginePower == b.enginePower == c.enginePower == 100.0
    requires a.towSize == a.towingSpeed == a.windSpeed == a.waveHeight == 0.0
    requires b.towSize == b.towingSpeed == b.windSpeed == b.waveHeight == 0.0
    requires c.towSize == c.towingSpeed == c.windSpeed == c.waveHeight == 0.0
    requires multiset(route) == multiset([a, b, c])
    ensures RouteCost(route) == 2.0 * 100.0 / (0.2 * 0.85)
  {
    assert |route| == |multiset(route)| == 3;
    forall k | 0 <= k < |route|
      ensures LegFuel(route[k]) == 100.0 / (0.2 * 0.85)
    {
      assert route[k] in multiset([a, b, c]);
    }
    UniformFuelCost(route, 100.0 / (0.2 * 0.85));
  }

  /** A two-waypoint route costs the fuel of its first waypoint, so its two
      orders cost the same exactly when both waypoints burn the same. */
  lemma TwoWaypointOrders(a: Waypoint, b: Waypoint)
    ensures RouteCost([a, b]) == LegFuel(a) && RouteCost([b, a]) == LegFuel(b)
    ensures RouteCost([a, b]) == RouteCost([b, a]) <==> LegFuel(a) == LegFuel(b)
  {
    assert [a, b][..1] == [a];
    assert [b, a][..1] == [b];
  }

  /** Waypoints that differ in their attributes can still cost the same in
      both orders: the power and the environmental factor trade off. */
  lemma DifferentWaypointsSameCost()
    ensures var a := Waypoint(0.0, 0.0, 0.0, 100.0, 0.0, 10.0, 0.0);
            var b := Waypoint(0.0, 1.0, 0.0, 200.0, 0.0, 0.0, 0.0);
            a != b && RouteCost([a, b]) == RouteCost([b, a])
  {
    var a := Waypoint(0.0, 0.0, 0.0, 100.0, 0.0, 10.0, 0.0);
    var b := Waypoint(0.0, 1.0, 0.0, 200.0, 0.0, 0.0, 0.0);
    TwoWaypointOrders(a, b);
  }

  /** With non-negative power and attributes the cost is non-negative. */
  lemma {:induction false} CostNonNegative(route: Route)
    requires forall k :: 0 <= k < |route| ==> NonNegativeAttributes(route[k])
    ensures RouteCost(route) >= 0.0
  {
    if |route| >= 2 {
      CostNonNegative(route[..|route| - 1]);
      assert NonNegativeAttributes(route[|route| - 2]);
    }
  }
}
