/**
 * The client-side simulated annealing of app/utils.ts: generic over the
 * elements of the route and over the cost function, which the caller
 * supplies. The search starts from the data in the order given, draws the
 * two positions of each swap independently (they may coincide), always takes
 * a strictly cheaper candidate, otherwise takes it when the Metropolis test
 * passes, and returns the strictly cheapest route it held with its cost.
 */
module GenericAnnealer {
  import opened Oracles
  import opened Permutation
  import opened Cooling
  import opened BestRecord
  import opened AnnealingRun

  /** Two Math.random() draws give the two positions; a strictly cheaper
      candidate is taken before, and without, the Metropolis draw. */
  const IndependentRule := Rule(sampledPositions := false, cheaperFirst := true)

  /** The `{ bestSolution, bestCost }` object the function returns. */
  datatype Annealed<T> = Annealed(bestSolution: seq<T>, bestCost: real)

  /** The setting of a run of simulatedAnnealing. */
  function SettingOf(initialTemp: real, coolingRate: real, random: nat -> real, exp: real -> real): (s: Setting)
    ensures s.rule == IndependentRule && s.random == random && s.exp == exp
    ensures s.initial == initialTemp && s.rate == coolingRate
  {
    Setting(IndependentRule, random, exp, initialTemp, coolingRate)
  }

  /**
   * One pass of the loop body before the best route is tracked: positions
   * Math.floor(Math.random() * length) from draws `draw` and `draw + 1`, the
   * swap on a copy, its cost, and acceptance when cheaper or, failing that,
   * when the Metropolis test on draw `draw + 2` passes.
   */
  method Iterate<T>(current: seq<T>, currentCost: real, temperature: real, draw: nat,
                    random: nat -> real, exp: real -> real, costFunction: seq<T> -> real)
    returns (positions: (nat, nat), candidate: seq<T>, next: seq<T>, nextCost: real, nextDraw: nat)
    requires currentCost == costFunction(current)
    requires 0.0 < temperature && IsUniformStream(random)
    ensures Move(IndependentRule, random, exp, temperature, draw, current, positions, candidate, next, nextDraw,
                 costFunction)
    ensures nextCost == costFunction(next)
  {
    var idx1: nat := ScaledIndex(random(draw), |current|);
    var idx2: nat := ScaledIndex(random(draw + 1), |current|);
    positions := (idx1, idx2);
    nextDraw := draw + 2;
    if |current| > 0 {
      candidate := SwappedCopy(current, idx1, idx2);
    } else {
      candidate := current;
    }
    var newCost := costFunction(candidate);
    var accepted := newCost < currentCost;
    if !accepted {
      accepted := Metropolis(random(nextDraw), exp, currentCost, newCost, temperature);
      nextDraw := nextDraw + 1;
    }
    if accepted {
      next, nextCost := candidate, newCost;
    } else {
      next, nextCost := current, currentCost;
    }
  }

  /** What the loop keeps true of its variables and of the run so far: the
      run under `s` started at `data` with draw 0, `current` is the route it
      holds now and `draw` the next draw, `best` the first cheapest route it
      held, and the costs are theirs. */
  ghost predicate Annealing<T>(data: seq<T>, s: Setting, costFunction: seq<T> -> real, visited: seq<seq<T>>,
                               swaps: seq<(nat, nat)>, candidates: seq<seq<T>>, draws: seq<nat>,
                               current: seq<T>, currentCost: real, best: seq<T>, bestCost: real, draw: nat)
    requires IsUniformStream(s.random)
  {
    && Run(s, visited, swaps, candidates, draws, costFunction) && visited[0] == data && draws[0] == 0
    && current == visited[|visited| - 1] && currentCost == costFunction(current) && draw == draws[|draws| - 1]
    && best == visited[BestIndex(visited, costFunction)] && bestCost == costFunction(best)
    && multiset(current) == multiset(data) && multiset(best) == multiset(data)
  }

  /** One pass of the loop body after the temperature check: `Iterate` at
      the temperature of iteration |swaps|, then the best route replaced when
      the new current route is strictly cheaper. The ghost record grows by
      the move. */
  method Step<T>(data: seq<T>, current: seq<T>, currentCost: real, best: seq<T>, bestCost: real,
                 temperature: real, draw: nat, random: nat -> real, exp: real -> real,
                 costFunction: seq<T> -> real, ghost s: Setting,
                 ghost visited: seq<seq<T>>, ghost swaps: seq<(nat, nat)>, ghost candidates: seq<seq<T>>,
                 ghost draws: seq<nat>)
    returns (next: seq<T>, nextCost: real, nextBest: seq<T>, nextBestCost: real, nextDraw: nat,
             ghost visited': seq<seq<T>>, ghost swaps': seq<(nat, nat)>, ghost candidates': seq<seq<T>>,
             ghost draws': seq<nat>)
    requires IsUniformStream(random) && s.random == random && s.exp == exp && s.rule == IndependentRule
    requires Annealing(data, s, costFunction, visited, swaps, candidates, draws, current, currentCost,
                       best, bestCost, draw)
    requires 0.0 < temperature && temperature == Cooled(s.initial, s.rate, |swaps|)
    ensures Annealing(data, s, costFunction, visited', swaps', candidates', draws', next, nextCost,
                      nextBest, nextBestCost, nextDraw)
    ensures visited' == visited + [next] && draws' == draws + [nextDraw]
    ensures |swaps'| == |swaps| + 1 && |candidates'| == |candidates| + 1
    ensures Move(IndependentRule, random, exp, temperature, draw, current, swaps'[|swaps|], candidates'[|swaps|],
                 next, nextDraw, costFunction)
    ensures nextBestCost <= bestCost && nextBestCost <= nextCost
  {
    var positions, candidate;
    positions, candidate, next, nextCost, nextDraw :=
      Iterate(current, currentCost, temperature, draw, random, exp, costFunction);
    MoveKeepsElements(IndependentRule, random, exp, temperature, draw, current, positions, candidate, next,
                      nextDraw, costFunction);
    RunExtend(s, visited, swaps, candidates, draws, positions, candidate, next, nextDraw, costFunction);
    BestIndexExtend(visited, costFunction, next);
    visited', swaps', candidates', draws' :=
      visited + [next], swaps + [positions], candidates + [candidate], draws + [nextDraw];
    if nextCost < bestCost {
      nextBest, nextBestCost := next, nextCost;
    } else {
      nextBest, nextBestCost := best, bestCost;
    }
  }

  /**
   * simulatedAnnealing: runs `while (temperature > stoppingTemp)`, cooling by
   * `coolingRate` each time. The ghost results record the run, which is the
   * one the draws of `random`, `exp` and the schedule determine from `data`;
   * the result is the first cheapest of the routes it held, an ordering of
   * `data`, returned with its cost.
   */
  method SimulatedAnnealing<T>(data: seq<T>, initialTemp: real, coolingRate: real, stoppingTemp: real,
                               costFunction: seq<T> -> real, random: nat -> real, exp: real -> real)
    returns (result: Annealed<T>, ghost visited: seq<seq<T>>, ghost swaps: seq<(nat, nat)>,
             ghost candidates: seq<seq<T>>, ghost draws: seq<nat>)
    requires IsUniformStream(random)
    requires stoppingTemp < initialTemp ==> 0.0 < coolingRate < 1.0 && 0.0 < stoppingTemp
    ensures Run(SettingOf(initialTemp, coolingRate, random, exp), visited, swaps, candidates, draws, costFunction)
    ensures visited[0] == data && draws[0] == 0
    ensures RanFor(initialTemp, coolingRate, stoppingTemp, |swaps|)
    ensures result.bestSolution == visited[BestIndex(visited, costFunction)]
    ensures result.bestCost == costFunction(result.bestSolution)
    ensures multiset(result.bestSolution) == multiset(data)
  {
    ghost var s := SettingOf(initialTemp, coolingRate, random, exp);
    var currentSolution := data;
    var currentCost := costFunction(currentSolution);
    var bestSolution := currentSolution;
    var bestCost := currentCost;
    var temperature := initialTemp;
    var draw: nat := 0;
    visited, swaps, candidates, draws := [currentSolution], [], [], [draw];
    ghost var budget := ScheduleStart(initialTemp, coolingRate, stoppingTemp);

    while temperature > stoppingTemp
      invariant Schedule(initialTemp, coolingRate, stoppingTemp, budget, |swaps|, temperature)
      invariant Annealing(data, s, costFunction, visited, swaps, candidates, draws, currentSolution, currentCost,
                          bestSolution, bestCost, draw)
      decreases budget - |swaps|
    {
      ScheduleNext(initialTemp, coolingRate, stoppingTemp, budget, |swaps|, temperature);
      currentSolution, currentCost, bestSolution, bestCost, draw, visited, swaps, candidates, draws :=
        Step(data, currentSolution, currentCost, bestSolution, bestCost, temperature, draw,
             random, exp, costFunction, s, visited, swaps, candidates, draws);
      temperature := temperature * coolingRate;
    }
    AnnealingDone(data, initialTemp, coolingRate, stoppingTemp, costFunction, random, exp, budget, temperature,
                  visited, swaps, candidates, draws, currentSolution, currentCost, bestSolution, bestCost, draw);
    result := Annealed(bestSolution, bestCost);
  }

  /** When the loop test fails, the invariant gives what the run returns. */
  lemma AnnealingDone<T>(data: seq<T>, initialTemp: real, coolingRate: real, stoppingTemp: real,
                         costFunction: seq<T> -> real, random: nat -> real, exp: real -> real, budget: nat,
                         temperature: real, visited: seq<seq<T>>, swaps: seq<(nat, nat)>,
                         candidates: seq<seq<T>>, draws: seq<nat>, current: seq<T>, currentCost: real,
                         best: seq<T>, bestCost: real, draw: nat)
    requires IsUniformStream(random)
    requires Schedule(initialTemp, coolingRate, stoppingTemp, budget, |swaps|, temperature)
    requires !(temperature > stoppingTemp)
    requires Annealing(data, SettingOf(initialTemp, coolingRate, random, exp), costFunction, visited, swaps,
                       candidates, draws, current, currentCost, best, bestCost, draw)
    ensures Run(SettingOf(initialTemp, coolingRate, random, exp), visited, swaps, candidates, draws, costFunction)
    ensures visited[0] == data && draws[0] == 0
    ensures RanFor(initialTemp, coolingRate, stoppingTemp, |swaps|)
    ensures best == visited[BestIndex(visited, costFunction)]
    ensures bestCost == costFunction(best)
    ensures multiset(best) == multiset(data)
  {
  }

  /** The returned cost is the least cost of every route the run held, and
      no route held before the returned one was as cheap. */
  lemma ResultIsCheapestHeld<T>(data: seq<T>, s: Setting, costFunction: seq<T> -> real, result: Annealed<T>,
                                visited: seq<seq<T>>, swaps: seq<(nat, nat)>, candidates: seq<seq<T>>,
                                draws: seq<nat>)
    requires IsUniformStream(s.random)
    requires Run(s, visited, swaps, candidates, draws, costFunction) && visited[0] == data
    requires result.bestSolution == visited[BestIndex(visited, costFunction)]
    requires result.bestCost == costFunction(result.bestSolution)
    ensures result.bestCost <= costFunction(data)
    ensures forall k :: 0 <= k < |visited| ==> result.bestCost <= costFunction(visited[k])
  {
    BestIndexIsFirstCheapest(visited, costFunction);
  }

  /** A schedule that starts at or below the stopping temperature returns
      the data unchanged, with its cost. */
  lemma ColdStartReturnsData<T>(data: seq<T>, initialTemp: real, coolingRate: real, stoppingTemp: real,
                                costFunction: seq<T> -> real, random: nat -> real, exp: real -> real,
                                result: Annealed<T>, visited: seq<seq<T>>, swaps: seq<(nat, nat)>,
                                candidates: seq<seq<T>>, draws: seq<nat>)
    requires IsUniformStream(random) && initialTemp <= stoppingTemp
    requires Run(SettingOf(initialTemp, coolingRate, random, exp), visited, swaps, candidates, draws, costFunction)
    requires visited[0] == data
    requires RanFor(initialTemp, coolingRate, stoppingTemp, |swaps|)
    requires result.bestSolution == visited[BestIndex(visited, costFunction)]
    requires result.bestCost == costFunction(result.bestSolution)
    ensures result == Annealed(data, costFunction(data))
  {
    ColdStartRunsNothing(initialTemp, coolingRate, stoppingTemp, |swaps|);
  }

  /** The same data, schedule, cost function, draws and exponential give the
      same result: everything random in a run comes from `random`. */
  lemma SameDrawsSameResult<T>(data: seq<T>, initialTemp: real, coolingRate: real, stoppingTemp: real,
                               costFunction: seq<T> -> real, random: nat -> real, exp: real -> real,
                               result: Annealed<T>, visited: seq<seq<T>>, swaps: seq<(nat, nat)>,
                               candidates: seq<seq<T>>, draws: seq<nat>,
                               result': Annealed<T>, visited': seq<seq<T>>, swaps': seq<(nat, nat)>,
                               candidates': seq<seq<T>>, draws': seq<nat>)
    requires IsUniformStream(random)
    requires Run(SettingOf(initialTemp, coolingRate, random, exp), visited, swaps, candidates, draws, costFunction)
    requires Run(SettingOf(initialTemp, coolingRate, random, exp), visited', swaps', candidates', draws', costFunction)
    requires visited[0] == data && draws[0] == 0 && visited'[0] == data && draws'[0] == 0
    requires RanFor(initialTemp, coolingRate, stoppingTemp, |swaps|)
    requires RanFor(initialTemp, coolingRate, stoppingTemp, |swaps'|)
    requires result.bestSolution == visited[BestIndex(visited, costFunction)]
    requires result.bestCost == costFunction(result.bestSolution)
    requires result'.bestSolution == visited'[BestIndex(visited', costFunction)]
    requires result'.bestCost == costFunction(result'.bestSolution)
    ensures result == result'
  {
    RanForUnique(initialTemp, coolingRate, stoppingTemp, |swaps|, |swaps'|);
    RunDetermined(SettingOf(initialTemp, coolingRate, random, exp), costFunction,
                  visited, swaps, candidates, draws, visited', swaps', candidates', draws');
  }
}
