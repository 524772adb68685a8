/**
 * The simulated-annealing search of the FastAPI optimizer (api/app.py):
 * start from a shuffled route, repeatedly swap two distinct positions of a
 * copy, accept the copy when it is cheaper or passes the Metropolis test,
 * remember the strictly cheapest route seen, and cool geometrically.
 */
module RouteOptimizer {
  import opened Outcomes
  import opened Oracles
  import opened Permutation
  import opened Cooling
  import opened FuelCost
  import opened BestRecord
  import opened AnnealingRun

  /** The route a run returns, with its cost. */
  datatype Optimized = Optimized(route: Route, cost: real)

  /** random.sample(range(n), 2) raises ValueError for a list of fewer than
      two waypoints. */
  datatype AnnealError = SampleLargerThanPopulation

  /** The moves of simulated_annealing: random.sample gives two distinct
      positions, and a strictly cheaper candidate is taken before, and
      without, the random.uniform draw. */
  const SampleRule := Rule(sampledPositions := true, cheaperFirst := true)

  /** The setting of a run of simulated_annealing. */
  function SettingOf(initialTemp: real, coolingRate: real, random: nat -> real, exp: real -> real): (s: Setting)
    ensures s.rule == SampleRule && s.random == random && s.exp == exp
    ensures s.initial == initialTemp && s.rate == coolingRate
  {
    Setting(SampleRule, random, exp, initialTemp, coolingRate)
  }

  /**
   * One pass of the loop body of simulated_annealing: sample two distinct
   * positions (draws `draw`, `draw + 1`), swap them in a copy, cost it, and
   * take it when cheaper or, failing that, when the Metropolis test on draw
   * `draw + 2` passes.
   */
  method Iterate(current: Route, currentCost: real, temperature: real, draw: nat,
                 random: nat -> real, exp: real -> real, greatCircle: (Waypoint, Waypoint) -> real)
    returns (positions: (nat, nat), candidate: Route, next: Route, nextCost: real, nextDraw: nat)
    requires |current| >= 2 && currentCost == RouteCost(current)
    requires 0.0 < temperature && IsUniformStream(random)
    ensures Move(SampleRule, random, exp, temperature, draw, current, positions, candidate, next, nextDraw, RouteCost)
    ensures nextCost == RouteCost(next)
  {
    positions := SampleTwo(random(draw), random(draw + 1), |current|);
    var idx1, idx2 := positions.0, positions.1;
    nextDraw := draw + 2;
    candidate := SwappedCopy(current, idx1, idx2);
    var newCost := CostFunction(candidate, greatCircle);
    var accepted := newCost < currentCost;
    if !accepted {
      accepted := Metropolis(random(nextDraw), exp, currentCost, newCost, temperature);
      nextDraw := nextDraw + 1;
    }
    if accepted {
      next, nextCost := candidate, newCost;
    } else {
      next, nextCost := current, currentCost;
    }
  }

  /** What the annealing loop keeps true of its variables and of the run so
      far: the run under `s` started at `shuffled` with draw 0, `current` is
      the route it holds now and `draw` the next draw, `best` the first
      cheapest route it held, and the costs are theirs. */
  ghost predicate Annealing(df: seq<Waypoint>, shuffled: Route, s: Setting, visited: seq<Route>,
                            swaps: seq<(nat, nat)>, candidates: seq<Route>, draws: seq<nat>,
                            current: Route, currentCost: real, best: Route, bestCost: real, draw: nat)
    requires IsUniformStream(s.random)
  {
    && Run(s, visited, swaps, candidates, draws, RouteCost) && visited[0] == shuffled && draws[0] == 0
    && current == visited[|visited| - 1] && currentCost == RouteCost(current) && draw == draws[|draws| - 1]
    && best == visited[BestIndex(visited, RouteCost)] && bestCost == RouteCost(best)
    && |current| == |df|
    && multiset(current) == multiset(df) && multiset(best) == multiset(df)
  }

  /**
   * One pass of the loop body of simulated_annealing after the temperature
   * check: the move of `Iterate` at the temperature of iteration |swaps|,
   * then `best` replaced when the new current route is strictly cheaper.
   * The ghost record grows by the move.
   */
  method Step(df: seq<Waypoint>, shuffled: Route, current: Route, currentCost: real, best: Route, bestCost: real,
              temperature: real, draw: nat, random: nat -> real, exp: real -> real,
              greatCircle: (Waypoint, Waypoint) -> real, ghost s: Setting,
              ghost visited: seq<Route>, ghost swaps: seq<(nat, nat)>, ghost candidates: seq<Route>,
              ghost draws: seq<nat>)
    returns (next: Route, nextCost: real, nextBest: Route, nextBestCost: real, nextDraw: nat,
             ghost visited': seq<Route>, ghost swaps': seq<(nat, nat)>, ghost candidates': seq<Route>,
             ghost draws': seq<nat>)
    requires IsUniformStream(random) && s.random == random && s.exp == exp && s.rule == SampleRule
    requires Annealing(df, shuffled, s, visited, swaps, candidates, draws, current, currentCost, best, bestCost, draw)
    requires |current| >= 2 && 0.0 < temperature && temperature == Cooled(s.initial, s.rate, |swaps|)
    ensures Annealing(df, shuffled, s, visited', swaps', candidates', draws', next, nextCost, nextBest,
                      nextBestCost, nextDraw)
    ensures visited' == visited + [next] && draws' == draws + [nextDraw]
    ensures |swaps'| == |swaps| + 1 && |candidates'| == |candidates| + 1
    ensures Move(SampleRule, random, exp, temperature, draw, current, swaps'[|swaps|], candidates'[|swaps|],
                 next, nextDraw, RouteCost)
    ensures nextBestCost <= bestCost && nextBestCost <= nextCost
  {
    var positions, candidate;
    positions, candidate, next, nextCost, nextDraw :=
      Iterate(current, currentCost, temperature, draw, random, exp, greatCircle);
    MoveKeepsElements(SampleRule, random, exp, temperature, draw, current, positions, candidate, next,
                      nextDraw, RouteCost);
    RunExtend(s, visited, swaps, candidates, draws, positions, candidate, next, nextDraw, RouteCost);
    BestIndexExtend(visited, RouteCost, next);
    visited', swaps', candidates', draws' :=
      visited + [next], swaps + [positions], candidates + [candidate], draws + [nextDraw];
    if nextCost < bestCost {
      nextBest, nextBestCost := next, nextCost;
    } else {
      nextBest, nextBestCost := best, bestCost;
    }
  }

  /**
   * simulated_annealing: `shuffled` is the random ordering df.sample(frac=1)
   * produced; `random` is the stream of uniform draws, of which each
   * iteration takes two for random.sample and, only when the candidate is
   * not cheaper, one for random.uniform(0, 1). The ghost results record the
   * run, which is the one the draws, `exp` and the schedule determine from
   * `shuffled`.
   */
  method SimulatedAnnealing(df: seq<Waypoint>, shuffled: Route, initialTemp: real, coolingRate: real,
                            stoppingTemp: real, random: nat -> real, exp: real -> real,
                            greatCircle: (Waypoint, Waypoint) -> real)
    returns (result: Result<Optimized, AnnealError>, ghost visited: seq<Route>,
             ghost swaps: seq<(nat, nat)>, ghost candidates: seq<Route>, ghost draws: seq<nat>)
    requires multiset(shuffled) == multiset(df)
    requires IsUniformStream(random)
    requires stoppingTemp < initialTemp ==> 0.0 < coolingRate < 1.0 && 0.0 < stoppingTemp
    ensures result.Failure? <==> stoppingTemp < initialTemp && |df| < 2
    ensures result.Success? ==>
      && Run(SettingOf(initialTemp, coolingRate, random, exp), visited, swaps, candidates, draws, RouteCost)
      && visited[0] == shuffled && draws[0] == 0
      && RanFor(initialTemp, coolingRate, stoppingTemp, |swaps|)
      && result.value.route == visited[BestIndex(visited, RouteCost)]
      && result.value.cost == RouteCost(result.value.route)
      && multiset(result.value.route) == multiset(df)
  {
    ghost var s := SettingOf(initialTemp, coolingRate, random, exp);
    var currentSolution := shuffled;
    var currentCost := CostFunction(currentSolution, greatCircle);
    var bestSolution := currentSolution;
    var bestCost := currentCost;
    var temperature := initialTemp;
    var draw: nat := 0;
    visited, swaps, candidates, draws := [currentSolution], [], [], [draw];
    ghost var budget := ScheduleStart(initialTemp, coolingRate, stoppingTemp);
    assert |shuffled| == |multiset(df)| == |df|;

    while temperature > stoppingTemp
      invariant Schedule(initialTemp, coolingRate, stoppingTemp, budget, |swaps|, temperature)
      invariant |swaps| > 0 ==> |df| >= 2
      invariant Annealing(df, shuffled, s, visited, swaps, candidates, draws, currentSolution, currentCost,
                          bestSolution, bestCost, draw)
      decreases budget - |swaps|
    {
      ScheduleNext(initialTemp, coolingRate, stoppingTemp, budget, |swaps|, temperature);
      if |currentSolution| < 2 {
        result := Failure(SampleLargerThanPopulation);
        return;
      }
      currentSolution, currentCost, bestSolution, bestCost, draw, visited, swaps, candidates, draws :=
        Step(df, shuffled, currentSolution, currentCost, bestSolution, bestCost, temperature, draw,
             random, exp, greatCircle, s, visited, swaps, candidates, draws);
      temperature := temperature * coolingRate;
    }
    AnnealingDone(df, shuffled, initialTemp, coolingRate, stoppingTemp, random, exp, budget, temperature,
                  visited, swaps, candidates, draws, currentSolution, currentCost, bestSolution, bestCost, draw);
    result := Success(Optimized(bestSolution, bestCost));
  }

  /** When the loop test fails, the invariant gives what the run returns. */
  lemma AnnealingDone(df: seq<Waypoint>, shuffled: Route, initialTemp: real, coolingRate: real,
                      stoppingTemp: real, random: nat -> real, exp: real -> real, budget: nat, temperature: real,
                      visited: seq<Route>, swaps: seq<(nat, nat)>, candidates: seq<Route>, draws: seq<nat>,
                      current: Route, currentCost: real, best: Route, bestCost: real, draw: nat)
    requires IsUniformStream(random)
    requires Schedule(initialTemp, coolingRate, stoppingTemp, budget, |swaps|, temperature)
    requires !(temperature > stoppingTemp)
    requires Annealing(df, shuffled, SettingOf(initialTemp, coolingRate, random, exp), visited, swaps,
                       candidates, draws, current, currentCost, best, bestCost, draw)
    ensures Run(SettingOf(initialTemp, coolingRate, random, exp), visited, swaps, candidates, draws, RouteCost)
    ensures visited[0] == shuffled && draws[0] == 0
    ensures RanFor(initialTemp, coolingRate, stoppingTemp, |swaps|)
    ensures best == visited[BestIndex(visited, RouteCost)]
    ensures bestCost == RouteCost(best)
    ensures multiset(best) == multiset(df)
  {
  }

  /**
   * The /optimize_route/ endpoint's search with its fixed schedule: 1000,
   * cooled by 0.99 per iteration, down to 1. It fails for fewer than two
   * waypoints; otherwise the route it returns is the first cheapest route
   * of the run that schedule and the draws determine, an ordering of the
   * waypoints no dearer than the shuffled start, and since only the last
   * waypoint matters, its cost is the departure fuel of all waypoints
   * minus that of its last one.
   */
  method OptimizeRoute(waypoints: seq<Waypoint>, shuffled: Route, random: nat -> real, exp: real -> real,
                       greatCircle: (Waypoint, Waypoint) -> real)
    returns (result: Result<Optimized, AnnealError>, ghost visited: seq<Route>,
             ghost swaps: seq<(nat, nat)>, ghost candidates: seq<Route>, ghost draws: seq<nat>)
    requires multiset(shuffled) == multiset(waypoints)
    requires IsUniformStream(random)
    ensures result.Failure? <==> |waypoints| < 2
    ensures result.Success? ==>
      && Run(SettingOf(1000.0, 0.99, random, exp), visited, swaps, candidates, draws, RouteCost)
      && visited[0] == shuffled && draws[0] == 0
      && RanFor(1000.0, 0.99, 1.0, |swaps|)
      && result.value.route == visited[BestIndex(visited, RouteCost)]
      && multiset(result.value.route) == multiset(waypoints)
      && result.value.cost == RouteCost(result.value.route)
      && result.value.cost <= RouteCost(shuffled)
      && |result.value.route| >= 2
      && result.value.cost == DepartureSum(waypoints) - LegFuel(result.value.route[|result.value.route| - 1])
  {
    var initialTemp := 1000.0;
    var coolingRate := 0.99;
    var stoppingTemp := 1.0;
    result, visited, swaps, candidates, draws :=
      SimulatedAnnealing(waypoints, shuffled, initialTemp, coolingRate, stoppingTemp, random, exp, greatCircle);
    if result.Success? {
      var route := result.value.route;
      BestNoWorseThanFirst(visited, RouteCost);
      assert |route| == |waypoints| by {
        assert |route| == |multiset(route)| == |multiset(waypoints)|;
      }
      CostDeterminedByLast(waypoints, route);
    }
  }
}
