/**
 * The record of a simulated-annealing run over orderings of a list, shared by
 * the three annealers: how one iteration turns the draws of the random
 * stream, the exponential and the temperature into a move, and what follows
 * for a whole run.
 */
module AnnealingRun {
  import opened Oracles
  import opened Permutation
  import opened Cooling

  /** How an annealer picks and accepts its moves: whether the two swapped
      positions come from random.sample (distinct) or from two independent
      Math.random() calls, and whether a strictly cheaper candidate is taken
      before, and without, the Metropolis draw. */
  datatype Rule = Rule(sampledPositions: bool, cheaperFirst: bool)

  /** What stays fixed during a run: the rule, the stream of uniform draws,
      the exponential, and the schedule under which iteration k runs at
      temperature `Cooled(initial, rate, k)`. */
  datatype Setting = Setting(rule: Rule, random: nat -> real, exp: real -> real, initial: real, rate: real)

  /** The two positions an iteration swaps, from draws `draw` and `draw + 1`
      for a route of `n` elements. */
  function DrawnPositions(rule: Rule, random: nat -> real, draw: nat, n: nat): (positions: (nat, nat))
    requires IsUniformStream(random)
    requires rule.sampledPositions ==> 2 <= n
    ensures n > 0 ==> positions.0 < n && positions.1 < n
    ensures rule.sampledPositions ==> positions.0 != positions.1
  {
    if rule.sampledPositions then SampleTwo(random(draw), random(draw + 1), n)
    else (ScaledIndex(random(draw), n), ScaledIndex(random(draw + 1), n))
  }

  /** Whether the candidate is taken, `u` being the draw for the Metropolis
      test: a strictly cheaper candidate always is when the rule tests that
      first; a candidate that is no dearer always is whenever `exp` is at
      least 1 on non-negative arguments. */
  function Accepts(rule: Rule, u: real, exp: real -> real, currentCost: real, candidateCost: real,
                   temperature: real): (taken: bool)
    requires 0.0 < temperature
    ensures rule.cheaperFirst && candidateCost < currentCost ==> taken
    ensures 0.0 <= u < 1.0 && IsExpOnNonNegatives(exp) && candidateCost <= currentCost ==> taken
    ensures !rule.cheaperFirst ==> taken == Metropolis(u, exp, currentCost, candidateCost, temperature)
  {
    (rule.cheaperFirst && candidateCost < currentCost) || Metropolis(u, exp, currentCost, candidateCost, temperature)
  }

  /** How many draws an iteration takes: two for the positions and, unless a
      strictly cheaper candidate was taken without it, one for the Metropolis
      test. */
  function DrawsUsed(rule: Rule, currentCost: real, candidateCost: real): nat
  {
    if rule.cheaperFirst && candidateCost < currentCost then 2 else 3
  }

  /** The draw count follows the short-circuit `or`: an iteration that uses
      two draws is one whose decision no third draw could change, and one
      that uses three decides by the Metropolis test on that third draw. */
  lemma DrawsUsedShortCircuit(rule: Rule, exp: real -> real, currentCost: real, candidateCost: real,
                              temperature: real)
    requires 0.0 < temperature
    ensures DrawsUsed(rule, currentCost, candidateCost) in {2, 3}
    ensures DrawsUsed(rule, currentCost, candidateCost) == 2 ==>
      forall u :: Accepts(rule, u, exp, currentCost, candidateCost, temperature)
    ensures DrawsUsed(rule, currentCost, candidateCost) == 3 ==>
      forall u :: Accepts(rule, u, exp, currentCost, candidateCost, temperature)
               == Metropolis(u, exp, currentCost, candidateCost, temperature)
  {
  }

  /** One iteration at `temperature` starting at draw `draw`: the positions
      are the drawn ones, `candidate` is `current` with them swapped, `next`
      is the candidate when it is accepted (with draw `draw + 2` for the
      Metropolis test) and `current` otherwise, and the next iteration starts
      at draw `nextDraw`. */
  ghost predicate Move<T>(rule: Rule, random: nat -> real, exp: real -> real, temperature: real, draw: nat,
                          current: seq<T>, positions: (nat, nat), candidate: seq<T>, next: seq<T>,
                          nextDraw: nat, cost: seq<T> -> real)
    requires IsUniformStream(random)
  {
    && 0.0 < temperature
    && (rule.sampledPositions ==> 2 <= |current|)
    && positions == DrawnPositions(rule, random, draw, |current|)
    && candidate == Neighbour(current, positions)
    && next == (if Accepts(rule, random(draw + 2), exp, cost(current), cost(candidate), temperature)
                then candidate else current)
    && nextDraw == draw + DrawsUsed(rule, cost(current), cost(candidate))
  }

  /** The record of a run: `visited[k]` is the current route before
      iteration k (and the final one after the last), `swaps[k]` the
      positions iteration k drew, `candidates[k]` the candidate it built,
      `draws[k]` the first draw it took (`draws[|swaps|]` the first one not
      taken), and every iteration is the `Move` its draws and its
      temperature determine. */
  ghost predicate Run<T>(s: Setting, visited: seq<seq<T>>, swaps: seq<(nat, nat)>, candidates: seq<seq<T>>,
                         draws: seq<nat>, cost: seq<T> -> real)
    requires IsUniformStream(s.random)
    decreases |swaps|
  {
    && |visited| == |swaps| + 1 && |candidates| == |swaps| && |draws| == |swaps| + 1
    && (|swaps| > 0 ==>
          var n := |swaps| - 1;
          && Run(s, visited[..n + 1], swaps[..n], candidates[..n], draws[..n + 1], cost)
          && Move(s.rule, s.random, s.exp, Cooled(s.initial, s.rate, n), draws[n],
                  visited[n], swaps[n], candidates[n], visited[n + 1], draws[n + 1], cost))
  }

  /** A run extended by the move of its next iteration is a run. */
  lemma RunExtend<T>(s: Setting, visited: seq<seq<T>>, swaps: seq<(nat, nat)>, candidates: seq<seq<T>>,
                     draws: seq<nat>, positions: (nat, nat), candidate: seq<T>, next: seq<T>, nextDraw: nat,
                     cost: seq<T> -> real)
    requires IsUniformStream(s.random)
    requires Run(s, visited, swaps, candidates, draws, cost)
    requires Move(s.rule, s.random, s.exp, Cooled(s.initial, s.rate, |swaps|), draws[|draws| - 1],
                  visited[|visited| - 1], positions, candidate, next, nextDraw, cost)
    ensures Run(s, visited + [next], swaps + [positions], candidates + [candidate], draws + [nextDraw], cost)
  {
    var n := |swaps|;
    var v, w, c, d := visited + [next], swaps + [positions], candidates + [candidate], draws + [nextDraw];
    assert v[..n + 1] == visited && w[..n] == swaps && c[..n] == candidates && d[..n + 1] == draws;
    assert v[n] == visited[n] && v[n + 1] == next && w[n] == positions && c[n] == candidate;
    assert d[n] == draws[n] && d[n + 1] == nextDraw;
    assert Run(s, v[..n + 1], w[..n], c[..n], d[..n + 1], cost);
    assert Move(s.rule, s.random, s.exp, Cooled(s.initial, s.rate, n), d[n], v[n], w[n], c[n], v[n + 1], d[n + 1],
                cost);
  }

  /** Every iteration of a run is the move its draws and its temperature
      determine. */
  lemma {:induction false} RunIsMoves<T>(s: Setting, visited: seq<seq<T>>, swaps: seq<(nat, nat)>,
                                         candidates: seq<seq<T>>, draws: seq<nat>, cost: seq<T> -> real)
    requires IsUniformStream(s.random)
    requires Run(s, visited, swaps, candidates, draws, cost)
    ensures forall k :: 0 <= k < |swaps| ==>
      Move(s.rule, s.random, s.exp, Cooled(s.initial, s.rate, k), draws[k],
           visited[k], swaps[k], candidates[k], visited[k + 1], draws[k + 1], cost)
    decreases |swaps|
  {
    if |swaps| > 0 {
      var n := |swaps| - 1;
      var front, ds := visited[..n + 1], draws[..n + 1];
      RunIsMoves(s, front, swaps[..n], candidates[..n], ds, cost);
      forall k | 0 <= k < n
        ensures Move(s.rule, s.random, s.exp, Cooled(s.initial, s.rate, k), draws[k],
                     visited[k], swaps[k], candidates[k], visited[k + 1], draws[k + 1], cost)
      {
        assert front[k] == visited[k] && front[k + 1] == visited[k + 1];
        assert ds[k] == draws[k] && ds[k + 1] == draws[k + 1];
        assert swaps[..n][k] == swaps[k] && candidates[..n][k] == candidates[k];
      }
    }
  }

  /** Iteration k of a run is the move its draws and its temperature
      determine. */
  lemma RunMoveAt<T>(s: Setting, visited: seq<seq<T>>, swaps: seq<(nat, nat)>, candidates: seq<seq<T>>,
                     draws: seq<nat>, cost: seq<T> -> real, k: nat)
    requires IsUniformStream(s.random)
    requires Run(s, visited, swaps, candidates, draws, cost) && k < |swaps|
    ensures Move(s.rule, s.random, s.exp, Cooled(s.initial, s.rate, k), draws[k],
                 visited[k], swaps[k], candidates[k], visited[k + 1], draws[k + 1], cost)
  {
    RunIsMoves(s, visited, swaps, candidates, draws, cost);
  }

  /** A move swaps two positions of the route, distinct ones under
      random.sample, and only reorders it. */
  lemma MoveKeepsElements<T>(rule: Rule, random: nat -> real, exp: real -> real, temperature: real, draw: nat,
                             current: seq<T>, positions: (nat, nat), candidate: seq<T>, next: seq<T>,
                             nextDraw: nat, cost: seq<T> -> real)
    requires IsUniformStream(random)
    requires Move(rule, random, exp, temperature, draw, current, positions, candidate, next, nextDraw, cost)
    ensures |current| > 0 ==> positions.0 < |current| && positions.1 < |current|
    ensures rule.sampledPositions ==> positions.0 != positions.1
    ensures next == current || next == candidate
    ensures multiset(next) == multiset(current) && |next| == |current|
  {
    assert |next| == |multiset(next)|;
  }

  /** When `exp` is at least 1 on non-negative arguments, a candidate no
      dearer than the current route is always taken, whichever the rule. */
  lemma MoveTakesNoDearer<T>(rule: Rule, random: nat -> real, exp: real -> real, temperature: real, draw: nat,
                             current: seq<T>, positions: (nat, nat), candidate: seq<T>, next: seq<T>,
                             nextDraw: nat, cost: seq<T> -> real)
    requires IsUniformStream(random) && IsExpOnNonNegatives(exp)
    requires Move(rule, random, exp, temperature, draw, current, positions, candidate, next, nextDraw, cost)
    requires cost(candidate) <= cost(current)
    ensures next == candidate
  {
    assert 0.0 <= random(draw + 2) < 1.0;
  }

  /** Routes each of which reorders the one before all reorder the first. */
  lemma {:induction false} ChainKeepsElements<T>(routes: seq<seq<T>>, n: nat)
    requires n < |routes|
    requires forall k :: 0 <= k < |routes| - 1 ==> multiset(routes[k + 1]) == multiset(routes[k])
    ensures multiset(routes[n]) == multiset(routes[0])
  {
    if n > 0 {
      ChainKeepsElements(routes, n - 1);
    }
  }

  /** A run never leaves the orderings of the route it started from. */
  lemma RunKeepsElements<T>(s: Setting, visited: seq<seq<T>>, swaps: seq<(nat, nat)>, candidates: seq<seq<T>>,
                            draws: seq<nat>, cost: seq<T> -> real)
    requires IsUniformStream(s.random)
    requires Run(s, visited, swaps, candidates, draws, cost)
    ensures forall k :: 0 <= k < |visited| ==> multiset(visited[k]) == multiset(visited[0])
  {
    RunIsMoves(s, visited, swaps, candidates, draws, cost);
    forall k | 0 <= k < |visited| - 1
      ensures multiset(visited[k + 1]) == multiset(visited[k])
    {
      MoveKeepsElements(s.rule, s.random, s.exp, Cooled(s.initial, s.rate, k), draws[k],
                        visited[k], swaps[k], candidates[k], visited[k + 1], draws[k + 1], cost);
    }
    forall n | 0 <= n < |visited|
      ensures multiset(visited[n]) == multiset(visited[0])
    {
      ChainKeepsElements(visited, n);
    }
  }

  /** When `exp` is at least 1 on non-negative arguments, every candidate a
      run did not take was strictly dearer than the route it kept, and its
      Metropolis draw failed. */
  lemma RejectedWereDearer<T>(s: Setting, visited: seq<seq<T>>, swaps: seq<(nat, nat)>,
                              candidates: seq<seq<T>>, draws: seq<nat>, cost: seq<T> -> real, k: nat)
    requires IsUniformStream(s.random) && IsExpOnNonNegatives(s.exp)
    requires Run(s, visited, swaps, candidates, draws, cost)
    requires k < |swaps| && visited[k + 1] != candidates[k]
    ensures visited[k + 1] == visited[k] && cost(candidates[k]) > cost(visited[k])
    ensures 0.0 < Cooled(s.initial, s.rate, k)
      && !Metropolis(s.random(draws[k] + 2), s.exp, cost(visited[k]), cost(candidates[k]),
                     Cooled(s.initial, s.rate, k))
  {
    RunMoveAt(s, visited, swaps, candidates, draws, cost, k);
    assert 0.0 <= s.random(draws[k] + 2) < 1.0;
  }

  /** Two moves from the same route, under the same draws, exponential and
      temperature, are the same move. */
  lemma MoveDetermined<T>(rule: Rule, random: nat -> real, exp: real -> real, temperature: real, cost: seq<T> -> real,
                          draw: nat, current: seq<T>, positions: (nat, nat), candidate: seq<T>, next: seq<T>,
                          nextDraw: nat,
                          draw': nat, current': seq<T>, positions': (nat, nat), candidate': seq<T>, next': seq<T>,
                          nextDraw': nat)
    requires IsUniformStream(random)
    requires Move(rule, random, exp, temperature, draw, current, positions, candidate, next, nextDraw, cost)
    requires Move(rule, random, exp, temperature, draw', current', positions', candidate', next', nextDraw', cost)
    requires draw == draw' && current == current'
    ensures positions == positions' && candidate == candidate' && next == next' && nextDraw == nextDraw'
  {
  }

  /** The iterations of a record, each the move its draws and its
      temperature determine: what `RunIsMoves` gives of a run. */
  ghost predicate AllMoves<T>(s: Setting, visited: seq<seq<T>>, swaps: seq<(nat, nat)>, candidates: seq<seq<T>>,
                              draws: seq<nat>, cost: seq<T> -> real)
    requires IsUniformStream(s.random)
  {
    && |visited| == |swaps| + 1 && |candidates| == |swaps| && |draws| == |swaps| + 1
    && forall k :: 0 <= k < |swaps| ==>
         Move(s.rule, s.random, s.exp, Cooled(s.initial, s.rate, k), draws[k],
              visited[k], swaps[k], candidates[k], visited[k + 1], draws[k + 1], cost)
  }

  /** Two records of moves under one setting from the same route and the
      same first draw agree on the routes held and the draws taken up to
      iteration k. */
  lemma {:induction false} MovesAgreeUpTo<T>(s: Setting, cost: seq<T> -> real,
                                             visited: seq<seq<T>>, swaps: seq<(nat, nat)>,
                                             candidates: seq<seq<T>>, draws: seq<nat>,
                                             visited': seq<seq<T>>, swaps': seq<(nat, nat)>,
                                             candidates': seq<seq<T>>, draws': seq<nat>, k: nat)
    requires IsUniformStream(s.random)
    requires AllMoves(s, visited, swaps, candidates, draws, cost)
    requires AllMoves(s, visited', swaps', candidates', draws', cost)
    requires |swaps| == |swaps'| && visited[0] == visited'[0] && draws[0] == draws'[0]
    requires k <= |swaps|
    ensures visited[k] == visited'[k] && draws[k] == draws'[k]
  {
    if k > 0 {
      var j := k - 1;
      MovesAgreeUpTo(s, cost, visited, swaps, candidates, draws, visited', swaps', candidates', draws', j);
      MoveDetermined(s.rule, s.random, s.exp, Cooled(s.initial, s.rate, j), cost,
                     draws[j], visited[j], swaps[j], candidates[j], visited[j + 1], draws[j + 1],
                     draws'[j], visited'[j], swaps'[j], candidates'[j], visited'[j + 1], draws'[j + 1]);
    }
  }

  /** A run is determined by its setting, its start, its first draw and its
      length: two such runs hold the same routes, draw the same positions,
      build the same candidates and take the same draws. */
  lemma RunDetermined<T>(s: Setting, cost: seq<T> -> real,
                         visited: seq<seq<T>>, swaps: seq<(nat, nat)>,
                         candidates: seq<seq<T>>, draws: seq<nat>,
                         visited': seq<seq<T>>, swaps': seq<(nat, nat)>,
                         candidates': seq<seq<T>>, draws': seq<nat>)
    requires IsUniformStream(s.random)
    requires Run(s, visited, swaps, candidates, draws, cost)
    requires Run(s, visited', swaps', candidates', draws', cost)
    requires |swaps| == |swaps'| && visited[0] == visited'[0] && draws[0] == draws'[0]
    ensures visited == visited' && swaps == swaps' && candidates == candidates' && draws == draws'
  {
    RunIsMoves(s, visited, swaps, candidates, draws, cost);
    RunIsMoves(s, visited', swaps', candidates', draws', cost);
    forall k | 0 <= k <= |swaps|
      ensures visited[k] == visited'[k] && draws[k] == draws'[k]
    {
      MovesAgreeUpTo(s, cost, visited, swaps, candidates, draws, visited', swaps', candidates', draws', k);
    }
    forall k | 0 <= k < |swaps|
      ensures swaps[k] == swaps'[k] && candidates[k] == candidates'[k]
    {
      MoveDetermined(s.rule, s.random, s.exp, Cooled(s.initial, s.rate, k), cost,
                     draws[k], visited[k], swaps[k], candidates[k], visited[k + 1], draws[k + 1],
                     draws'[k], visited'[k], swaps'[k], candidates'[k], visited'[k + 1], draws'[k + 1]);
    }
  }
}
