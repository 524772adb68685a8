/**
 * The route search of the Express servers (api/server.js and, line for line
 * the same, api/optimize-route.js): simulated annealing over the order of
 * points in the plane, whose energy is the Euclidean length of the route
 * taken in latitude and longitude as plane coordinates.
 */
module EuclideanAnnealer {
  import opened Oracles
  import opened Permutation
  import opened Cooling
  import opened BestRecord
  import opened AnnealingRun

  /** A point of the request's `points` array. */
  datatype Point = Point(latitude: real, longitude: real)

  /** The `distance` helper: sqrt of the squared coordinate differences.
      With a true square root it is never negative, and a point is at
      distance sqrt(0) from itself. */
  function Distance(p: Point, q: Point, sqrt: real -> real): (d: real)
    ensures IsSqrt(sqrt) ==> 0.0 <= d
    ensures p == q ==> d == sqrt(0.0)
  {
    var squared := (p.latitude - q.latitude) * (p.latitude - q.latitude)
                   + (p.longitude - q.longitude) * (p.longitude - q.longitude);
    assert 0.0 <= squared;
    assert p == q ==> squared == 0.0;
    sqrt(squared)
  }

  /** The length of a route: its legs' distances, summed in order. */
  function TotalDistance(route: seq<Point>, sqrt: real -> real): real
  {
    if |route| < 2 then 0.0
    else TotalDistance(route[..|route| - 1], sqrt) + Distance(route[|route| - 2], route[|route| - 1], sqrt)
  }

  /** The energy the annealer minimises, as a function of the route. */
  function EnergyOf(sqrt: real -> real): seq<Point> -> real
  {
    route => TotalDistance(route, sqrt)
  }

  /** The distance is never negative, is the same both ways, and is zero
      from a point to itself. */
  lemma DistanceIsMetricLike(p: Point, q: Point, sqrt: real -> real)
    requires IsSqrt(sqrt)
    ensures Distance(p, q, sqrt) >= 0.0
    ensures Distance(p, q, sqrt) == Distance(q, p, sqrt)
    ensures Distance(p, p, sqrt) == 0.0
  {
    var a, b := p.latitude - q.latitude, p.longitude - q.longitude;
    assert 0.0 <= a * a + b * b;
    assert (q.latitude - p.latitude) * (q.latitude - p.latitude) == a * a;
    assert (q.longitude - p.longitude) * (q.longitude - p.longitude) == b * b;
  }

  /** A route is never of negative length. */
  lemma {:induction false} TotalDistanceNonNegative(route: seq<Point>, sqrt: real -> real)
    requires IsSqrt(sqrt)
    ensures TotalDistance(route, sqrt) >= 0.0
  {
    if |route| >= 2 {
      TotalDistanceNonNegative(route[..|route| - 1], sqrt);
      DistanceIsMetricLike(route[|route| - 2], route[|route| - 1], sqrt);
    }
  }

  /** The route in the opposite order. */
  function Reversed<T>(s: seq<T>): (r: seq<T>)
    ensures |r| == |s| && forall k :: 0 <= k < |s| ==> r[k] == s[|s| - 1 - k]
  {
    if s == [] then [] else [s[|s| - 1]] + Reversed(s[..|s| - 1])
  }

  /** The length of a route with one more point at its front. */
  lemma {:induction false} TotalDistancePrepend(p: Point, route: seq<Point>, sqrt: real -> real)
    requires |route| >= 1
    ensures TotalDistance([p] + route, sqrt) == Distance(p, route[0], sqrt) + TotalDistance(route, sqrt)
    decreases |route|
  {
    var r := [p] + route;
    if |route| == 1 {
      assert r[..1] == [p];
    } else {
      TotalDistancePrepend(p, route[..|route| - 1], sqrt);
      assert r[..|r| - 1] == [p] + route[..|route| - 1];
    }
  }

  /** Travelling a route backwards covers the same distance. */
  lemma {:induction false} ReversedSameDistance(route: seq<Point>, sqrt: real -> real)
    requires IsSqrt(sqrt)
    ensures TotalDistance(Reversed(route), sqrt) == TotalDistance(route, sqrt)
    decreases |route|
  {
    if |route| >= 2 {
      var n := |route|;
      var front := route[..n - 1];
      ReversedSameDistance(front, sqrt);
      var rf := Reversed(front);
      assert Reversed(route) == [route[n - 1]] + rf;
      assert rf[0] == route[n - 2];
      TotalDistancePrepend(route[n - 1], rf, sqrt);
      DistanceIsMetricLike(route[n - 1], route[n - 2], sqrt);
    }
  }

  /**
   * calculateTotalDistance: the loop that sums the legs of a route, proved to
   * compute its length.
   */
  method CalculateTotalDistance(route: seq<Point>, sqrt: real -> real) returns (totalDistance: real)
    ensures totalDistance == TotalDistance(route, sqrt)
  {
    totalDistance := 0.0;
    var i := 0;
    while i < |route| - 1
      invariant 0 <= i && (|route| == 0 ==> i == 0 && totalDistance == 0.0)
      invariant |route| > 0 ==> i <= |route| - 1 && totalDistance == TotalDistance(route[..i + 1], sqrt)
    {
      assert route[..i + 2][..i + 1] == route[..i + 1];
      totalDistance := totalDistance + Distance(route[i], route[i + 1], sqrt);
      i := i + 1;
    }
    if |route| > 0 {
      assert route[..i + 1] == route;
    }
  }

  /** Positions from two Math.random() calls; acceptance by the Metropolis
      test alone, which draws for every candidate. */
  const MetropolisRule := Rule(sampledPositions := false, cheaperFirst := false)

  /** The factor `1 - coolingRate` by which each iteration cools. */
  function CoolingFactor(coolingRate: real): real
  {
    1.0 - coolingRate
  }

  /** The setting of a run of simulatedAnnealing: iteration k runs at
      `Cooled(initialTemperature, 1 - coolingRate, k)`. */
  function SettingOf(initialTemperature: real, coolingRate: real, random: nat -> real, exp: real -> real): (s: Setting)
    ensures s.rule == MetropolisRule && s.random == random && s.exp == exp
    ensures s.initial == initialTemperature && s.rate == CoolingFactor(coolingRate)
  {
    Setting(MetropolisRule, random, exp, initialTemperature, CoolingFactor(coolingRate))
  }

  /**
   * One pass of the loop body before the best route is tracked: positions
   * from draws `draw` and `draw + 1`, the swap on a copy, both energies, and
   * acceptance when the Metropolis test on draw `draw + 2` passes.
   */
  method Iterate(current: seq<Point>, temperature: real, draw: nat, random: nat -> real, exp: real -> real,
                 sqrt: real -> real)
    returns (positions: (nat, nat), candidate: seq<Point>, next: seq<Point>, nextDraw: nat)
    requires 0.0 < temperature && IsUniformStream(random)
    ensures Move(MetropolisRule, random, exp, temperature, draw, current, positions, candidate, next, nextDraw,
                 EnergyOf(sqrt))
  {
    var pos1: nat := ScaledIndex(random(draw), |current|);
    var pos2: nat := ScaledIndex(random(draw + 1), |current|);
    positions := (pos1, pos2);
    if |current| > 0 {
      candidate := SwappedCopy(current, pos1, pos2);
    } else {
      candidate := current;
    }
    var currentEnergy := CalculateTotalDistance(current, sqrt);
    var newEnergy := CalculateTotalDistance(candidate, sqrt);
    if Metropolis(random(draw + 2), exp, currentEnergy, newEnergy, temperature) {
      next := candidate;
    } else {
      next := current;
    }
    nextDraw := draw + 3;
  }

  /** What the loop keeps true of its variables and of the run so far: the
      run under `s` started at `points` with draw 0, `current` is the route
      it holds now and `draw` the next draw, and `best` the first shortest
      route it held. */
  ghost predicate Annealing(points: seq<Point>, s: Setting, sqrt: real -> real, visited: seq<seq<Point>>,
                            swaps: seq<(nat, nat)>, candidates: seq<seq<Point>>, draws: seq<nat>,
                            current: seq<Point>, best: seq<Point>, draw: nat)
    requires IsUniformStream(s.random)
  {
    && Run(s, visited, swaps, candidates, draws, EnergyOf(sqrt)) && visited[0] == points && draws[0] == 0
    && current == visited[|visited| - 1] && draw == draws[|draws| - 1]
    && best == visited[BestIndex(visited, EnergyOf(sqrt))]
    && multiset(current) == multiset(points) && multiset(best) == multiset(points)
  }

  /** One pass of the loop body after the temperature check: `Iterate` at
      the temperature of iteration |swaps|, then the best route replaced
      when the current route is strictly shorter. */
  method Step(points: seq<Point>, current: seq<Point>, best: seq<Point>, temperature: real, factor: real,
              draw: nat, random: nat -> real, exp: real -> real, sqrt: real -> real, ghost s: Setting,
              ghost budget: nat, ghost visited: seq<seq<Point>>, ghost swaps: seq<(nat, nat)>,
              ghost candidates: seq<seq<Point>>, ghost draws: seq<nat>)
    returns (next: seq<Point>, nextBest: seq<Point>, nextTemperature: real, nextDraw: nat,
             ghost visited': seq<seq<Point>>, ghost swaps': seq<(nat, nat)>, ghost candidates': seq<seq<Point>>,
             ghost draws': seq<nat>)
    requires IsUniformStream(random) && s.random == random && s.exp == exp && s.rule == MetropolisRule
    requires Annealing(points, s, sqrt, visited, swaps, candidates, draws, current, best, draw)
    requires Schedule(s.initial, factor, 1.0, budget, |swaps|, temperature) && temperature > 1.0
    requires factor == s.rate
    ensures Schedule(s.initial, factor, 1.0, budget, |swaps'|, nextTemperature)
    ensures nextTemperature == temperature * factor && |swaps| < budget
    ensures Annealing(points, s, sqrt, visited', swaps', candidates', draws', next, nextBest, nextDraw)
    ensures visited' == visited + [next] && draws' == draws + [nextDraw]
    ensures |swaps'| == |swaps| + 1 && |candidates'| == |candidates| + 1
    ensures Move(MetropolisRule, random, exp, temperature, draw, current, swaps'[|swaps|], candidates'[|swaps|],
                 next, nextDraw, EnergyOf(sqrt))
    ensures TotalDistance(nextBest, sqrt) <= TotalDistance(best, sqrt)
    ensures TotalDistance(nextBest, sqrt) <= TotalDistance(next, sqrt)
  {
    var positions, candidate;
    positions, candidate, next, nextDraw := Iterate(current, temperature, draw, random, exp, sqrt);
    MoveKeepsElements(MetropolisRule, random, exp, temperature, draw, current, positions, candidate, next,
                      nextDraw, EnergyOf(sqrt));
    RunExtend(s, visited, swaps, candidates, draws, positions, candidate, next, nextDraw, EnergyOf(sqrt));
    BestIndexExtend(visited, EnergyOf(sqrt), next);
    visited', swaps', candidates', draws' :=
      visited + [next], swaps + [positions], candidates + [candidate], draws + [nextDraw];
    var nextLength := CalculateTotalDistance(next, sqrt);
    var bestLength := CalculateTotalDistance(best, sqrt);
    if nextLength < bestLength {
      nextBest := next;
    } else {
      nextBest := best;
    }
    nextTemperature := temperature * factor;
    ScheduleCooled(s.initial, factor, 1.0, budget, |swaps|, temperature, |swaps'|, nextTemperature);
  }

  /**
   * simulatedAnnealing: runs `while (temperature > 1)`, multiplying the
   * temperature by 1 - coolingRate each time. The ghost results record the
   * run, which is the one the draws of `random`, `exp` and the schedule
   * determine from `points`; the result is the first shortest of the routes
   * it held, an ordering of `points`.
   */
  method SimulatedAnnealing(points: seq<Point>, initialTemperature: real, coolingRate: real,
                            random: nat -> real, exp: real -> real, sqrt: real -> real)
    returns (bestSolution: seq<Point>, ghost visited: seq<seq<Point>>, ghost swaps: seq<(nat, nat)>,
             ghost candidates: seq<seq<Point>>, ghost draws: seq<nat>)
    requires IsUniformStream(random)
    requires 1.0 < initialTemperature ==> 0.0 < coolingRate < 1.0
    ensures Run(SettingOf(initialTemperature, coolingRate, random, exp), visited, swaps, candidates, draws,
                EnergyOf(sqrt))
    ensures visited[0] == points && draws[0] == 0
    ensures RanFor(initialTemperature, CoolingFactor(coolingRate), 1.0, |swaps|)
    ensures bestSolution == visited[BestIndex(visited, EnergyOf(sqrt))]
    ensures multiset(bestSolution) == multiset(points)
  {
    ghost var s := SettingOf(initialTemperature, coolingRate, random, exp);
    var currentSolution := points;
    var bestSoFar := currentSolution;
    var temperature := initialTemperature;
    var draw: nat := 0;
    var factor := CoolingFactor(coolingRate);
    visited, swaps, candidates, draws := [currentSolution], [], [], [draw];
    ghost var budget := ScheduleStart(s.initial, factor, 1.0);

    while temperature > 1.0
      invariant Schedule(s.initial, factor, 1.0, budget, |swaps|, temperature)
      invariant Annealing(points, s, sqrt, visited, swaps, candidates, draws, currentSolution, bestSoFar, draw)
      decreases budget - |swaps|
    {
      currentSolution, bestSoFar, temperature, draw, visited, swaps, candidates, draws :=
        Step(points, currentSolution, bestSoFar, temperature, factor, draw, random, exp, sqrt, s, budget,
             visited, swaps, candidates, draws);
    }
    AnnealingDone(points, initialTemperature, coolingRate, random, exp, sqrt, budget, temperature,
                  visited, swaps, candidates, draws, currentSolution, bestSoFar, draw);
    bestSolution := bestSoFar;
  }

  /** When the loop test fails, the invariant gives what the run returns. */
  lemma AnnealingDone(points: seq<Point>, initialTemperature: real, coolingRate: real, random: nat -> real,
                      exp: real -> real, sqrt: real -> real, budget: nat, temperature: real,
                      visited: seq<seq<Point>>, swaps: seq<(nat, nat)>, candidates: seq<seq<Point>>,
                      draws: seq<nat>, current: seq<Point>, best: seq<Point>, draw: nat)
    requires IsUniformStream(random)
    requires Schedule(initialTemperature, CoolingFactor(coolingRate), 1.0, budget, |swaps|, temperature)
    requires !(temperature > 1.0)
    requires Annealing(points, SettingOf(initialTemperature, coolingRate, random, exp), sqrt, visited, swaps,
                       candidates, draws, current, best, draw)
    ensures Run(SettingOf(initialTemperature, coolingRate, random, exp), visited, swaps, candidates, draws,
                EnergyOf(sqrt))
    ensures visited[0] == points && draws[0] == 0
    ensures RanFor(initialTemperature, CoolingFactor(coolingRate), 1.0, |swaps|)
    ensures best == visited[BestIndex(visited, EnergyOf(sqrt))]
    ensures multiset(best) == multiset(points)
  {
  }

  /** The returned route is no longer than any route the run held, the
      given order included, and no route held before it was as short. */
  lemma ResultIsShortestHeld(points: seq<Point>, s: Setting, sqrt: real -> real, bestSolution: seq<Point>,
                             visited: seq<seq<Point>>, swaps: seq<(nat, nat)>, candidates: seq<seq<Point>>,
                             draws: seq<nat>)
    requires IsUniformStream(s.random)
    requires Run(s, visited, swaps, candidates, draws, EnergyOf(sqrt)) && visited[0] == points
    requires bestSolution == visited[BestIndex(visited, EnergyOf(sqrt))]
    ensures TotalDistance(bestSolution, sqrt) <= TotalDistance(points, sqrt)
    ensures forall k :: 0 <= k < |visited| ==> TotalDistance(bestSolution, sqrt) <= TotalDistance(visited[k], sqrt)
  {
    BestIndexIsFirstCheapest(visited, EnergyOf(sqrt));
  }
}
