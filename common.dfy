/** Success/failure results, for the error paths of the modelled code. */
module Outcomes {
  datatype Result<+T, +E> = Success(value: T) | Failure(error: E)
}

/**
 * Randomness and transcendental functions, which the modelled programs take
 * from their language runtime, enter the model as parameters: a stream of
 * uniform draws and the functions `exp` and `sqrt`. The predicates below are
 * what the model assumes of them.
 */
module Oracles {
  /** Draw `k` of a run is `random(k)`; like Math.random() and
      random.uniform(0, 1) every draw lies in [0, 1). */
  ghost predicate IsUniformStream(random: nat -> real)
  {
    forall k :: 0.0 <= random(k) < 1.0
  }

  /** The one property of the exponential the model relies on. */
  ghost predicate IsExpOnNonNegatives(exp: real -> real)
  {
    forall x :: 0.0 <= x ==> 1.0 <= exp(x)
  }

  /** `sqrt` is the non-negative square root on non-negative arguments.
      `sqrt(0) == 0` follows from the quantified part, but the solver's
      non-linear real arithmetic does not derive it, so it is stated. */
  ghost predicate IsSqrt(sqrt: real -> real)
  {
    && sqrt(0.0) == 0.0
    && forall x :: 0.0 <= x ==> 0.0 <= sqrt(x) && sqrt(x) * sqrt(x) == x
  }

  /** Math.floor(u * n): a draw from [0, 1) scaled to a position of an
      n-element array (0 for the empty array). */
  function ScaledIndex(u: real, n: nat): (i: int)
    requires 0.0 <= u < 1.0
    ensures n > 0 ==> 0 <= i < n
    ensures n == 0 ==> i == 0
  {
    assert 0.0 <= u * n as real;
    assert n > 0 ==> u * n as real < n as real;
    (u * n as real).Floor
  }

  /** The Metropolis test: a uniform draw `u` below exp((current - candidate)
      / temperature). With a draw from [0, 1) a candidate that is not worse
      than the current route always passes, since then exp is at least 1. */
  function Metropolis(u: real, exp: real -> real, currentCost: real, candidateCost: real,
                      temperature: real): (pass: bool)
    requires 0.0 < temperature
    ensures 0.0 <= u < 1.0 && IsExpOnNonNegatives(exp) && candidateCost <= currentCost ==> pass
  {
    assert candidateCost <= currentCost ==> 0.0 <= (currentCost - candidateCost) / temperature;
    u < exp((currentCost - candidateCost) / temperature)
  }

  /** random.sample(range(n), 2): two draws give two DISTINCT positions of an
      n-element list, the first uniform over all n, the second uniform over
      the other n - 1. */
  function SampleTwo(u0: real, u1: real, n: nat): (positions: (nat, nat))
    requires 0.0 <= u0 < 1.0 && 0.0 <= u1 < 1.0
    requires 2 <= n
    ensures positions.0 < n && positions.1 < n && positions.0 != positions.1
  {
    var first := ScaledIndex(u0, n);
    var other := ScaledIndex(u1, n - 1);
    (first, if other < first then other else other + 1)
  }
}

/** Swapping two positions of a route, the neighbour move of every annealer. */
module Permutation {
  /** The sequence `s` with the elements at `i` and `j` exchanged. */
  function Swap<T>(s: seq<T>, i: nat, j: nat): (r: seq<T>)
    requires i < |s| && j < |s|
    ensures |r| == |s| && r[i] == s[j] && r[j] == s[i]
    ensures forall k :: 0 <= k < |s| && k != i && k != j ==> r[k] == s[k]
    ensures multiset(r) == multiset(s)
  {
    var r := s[i := s[j]][j := s[i]];
    assert multiset(s[i := s[j]]) == multiset(s) - multiset{s[i]} + multiset{s[j]};
    r
  }

  /** The neighbour a JavaScript annealer builds from positions `i`, `j`;
      positions outside the route (only possible when it is empty) leave
      it as it is. */
  function Neighbour<T>(s: seq<T>, positions: (nat, nat)): (r: seq<T>)
    ensures multiset(r) == multiset(s)
  {
    if positions.0 < |s| && positions.1 < |s| then Swap(s, positions.0, positions.1) else s
  }

  /** Copies `s` into a fresh array and swaps two of its slots in place, as
      every annealer builds its candidate route. */
  method SwappedCopy<T>(s: seq<T>, i: nat, j: nat) returns (r: seq<T>)
    requires i < |s| && j < |s|
    ensures r == Swap(s, i, j)
  {
    var copy := new T[|s|](k requires 0 <= k < |s| => s[k]);
    assert copy[..] == s;
    copy[i], copy[j] := copy[j], copy[i];
    r := copy[..];
    assert forall k :: 0 <= k < |s| ==> r[k] == Swap(s, i, j)[k];
  }
}

/** Geometric cooling: the temperature after k steps and why the loop ends. */
module Cooling {
  /** `rate` to the power `k`: the factor by which k coolings scale the
      temperature. */
  function Pow(rate: real, k: nat): real
  {
    if k == 0 then 1.0 else Pow(rate, k - 1) * rate
  }

  /** Bernoulli's inequality in the form (1 - e)^k * (1 + k e) <= 1. */
  lemma {:induction false} PowBernoulli(rate: real, k: nat)
    requires 0.0 < rate < 1.0
    ensures 0.0 < Pow(rate, k)
    ensures Pow(rate, k) * (1.0 + k as real * (1.0 - rate)) <= 1.0
  {
    if k > 0 {
      PowBernoulli(rate, k - 1);
      var p := Pow(rate, k - 1);
      var e := 1.0 - rate;
      var m := (k - 1) as real;
      assert rate * (1.0 + (m + 1.0) * e) == 1.0 + m * e - (m + 1.0) * e * e;
      assert 0.0 <= (m + 1.0) * e * e;
      assert rate * (1.0 + (m + 1.0) * e) <= 1.0 + m * e;
      assert p * (rate * (1.0 + (m + 1.0) * e)) <= p * (1.0 + m * e);
      assert Pow(rate, k) * (1.0 + k as real * e) == p * (rate * (1.0 + (m + 1.0) * e));
    }
  }

  /** The temperature after `k` coolings by `rate` from `initial`. */
  function Cooled(initial: real, rate: real, k: nat): real
  {
    if k == 0 then initial else Cooled(initial, rate, k - 1) * rate
  }

  /** k coolings scale the temperature by rate^k. */
  lemma {:induction false} CooledIsPow(initial: real, rate: real, k: nat)
    ensures Cooled(initial, rate, k) == initial * Pow(rate, k)
  {
    if k > 0 {
      CooledIsPow(initial, rate, k - 1);
      assert initial * Pow(rate, k - 1) * rate == initial * (Pow(rate, k - 1) * rate);
    }
  }

  /** With 0 < rate < 1 and stop > 0 every starting temperature cools to
      `stop` or below after finitely many steps. */
  lemma CoolingEnds(initial: real, rate: real, stop: real)
    requires 0.0 < rate < 1.0 && 0.0 < stop
    ensures exists k: nat :: Cooled(initial, rate, k) <= stop
  {
    if initial <= stop {
      assert Cooled(initial, rate, 0) <= stop;
    } else {
      var e := 1.0 - rate;
      var k: nat := (initial / (stop * e)).Floor + 1;
      StepsEnough(initial, e, stop, k);
      PowBernoulli(rate, k);
      ShrinkBelow(initial, Pow(rate, k), 1.0 + k as real * e, stop);
      CooledIsPow(initial, rate, k);
    }
  }

  /** More than initial / (stop * e) steps make 1 + k e exceed initial / stop. */
  lemma StepsEnough(initial: real, e: real, stop: real, k: nat)
    requires 0.0 < e && 0.0 < stop
    requires initial / (stop * e) < k as real
    ensures initial < stop * (1.0 + k as real * e)
  {
    var bound := initial / (stop * e);
    assert initial == bound * (stop * e);
    assert bound * (stop * e) < k as real * (stop * e);
  }

  /** If p * grow <= 1 and initial < stop * grow then initial * p < stop. */
  lemma ShrinkBelow(initial: real, p: real, grow: real, stop: real)
    requires 0.0 < initial && 0.0 < p && 0.0 < grow
    requires p * grow <= 1.0 && initial < stop * grow
    ensures initial * p < stop
  {
    assert initial * (p * grow) <= initial;
    assert (initial * p) * grow < stop * grow;
  }

  /** Before each of the first `n` coolings the temperature was still above
      `stop`. */
  ghost predicate StayedAbove(initial: real, rate: real, stop: real, n: nat)
  {
    n == 0 || (StayedAbove(initial, rate, stop, n - 1) && Cooled(initial, rate, n - 1) > stop)
  }

  /** Spelled out: each of the first `n` temperatures was above `stop`. */
  lemma {:induction false} StayedAboveAll(initial: real, rate: real, stop: real, n: nat)
    requires StayedAbove(initial, rate, stop, n)
    ensures forall k :: 0 <= k < n ==> Cooled(initial, rate, k) > stop
  {
    if n > 0 {
      StayedAboveAll(initial, rate, stop, n - 1);
    }
  }

  /** A loop `while temperature > stop { ...; temperature *= rate }` started
      at `initial` ran exactly `n` times. */
  ghost predicate RanFor(initial: real, rate: real, stop: real, n: nat)
  {
    Cooled(initial, rate, n) <= stop && StayedAbove(initial, rate, stop, n)
  }

  /** One more cooling from a temperature still above `stop`. */
  lemma CoolOnce(initial: real, rate: real, stop: real, n: nat, temperature: real)
    requires temperature == Cooled(initial, rate, n)
    requires StayedAbove(initial, rate, stop, n) && temperature > stop
    ensures StayedAbove(initial, rate, stop, n + 1)
    ensures temperature * rate == Cooled(initial, rate, n + 1)
  {
  }

  /** The state of a loop `while temperature > stop { ...; temperature *=
      rate }` after `n` coolings: the temperature is the schedule's, every
      cooling so far started above `stop`, and, when the loop can run at
      all, `n` has not passed a count `budget` at which the schedule is at
      or below `stop`. */
  ghost predicate Schedule(initial: real, rate: real, stop: real, budget: nat, n: nat, temperature: real)
  {
    && temperature == Cooled(initial, rate, n)
    && (initial <= stop ==> n == 0)
    && (stop < initial ==> n <= budget && Cooled(initial, rate, budget) <= stop)
    && StayedAbove(initial, rate, stop, n)
  }

  /** Before the first test of the loop, with a schedule that ends. */
  lemma ScheduleStart(initial: real, rate: real, stop: real) returns (budget: nat)
    requires stop < initial ==> 0.0 < rate < 1.0 && 0.0 < stop
    ensures Schedule(initial, rate, stop, budget, 0, initial)
  {
    budget := 0;
    if stop < initial {
      CoolingEnds(initial, rate, stop);
      budget :| Cooled(initial, rate, budget) <= stop;
    }
  }

  /** A pass of the loop body: the test passed, so the loop was entered from
      a start above `stop`, fewer than `budget` coolings have happened, and
      cooling once more keeps the schedule. */
  lemma ScheduleNext(initial: real, rate: real, stop: real, budget: nat, n: nat, temperature: real)
    requires Schedule(initial, rate, stop, budget, n, temperature) && temperature > stop
    ensures stop < initial && n < budget
    ensures temperature == Cooled(initial, rate, n)
    ensures Schedule(initial, rate, stop, budget, n + 1, temperature * rate)
  {
    CoolOnce(initial, rate, stop, n, temperature);
    assert n == 0 ==> temperature == initial;
  }

  /** A pass of the loop body, stated for the count `n'` and temperature
      `temperature'` the pass leaves behind. */
  lemma ScheduleCooled(initial: real, rate: real, stop: real, budget: nat, n: nat, temperature: real,
                       n': nat, temperature': real)
    requires Schedule(initial, rate, stop, budget, n, temperature) && temperature > stop
    requires n' == n + 1 && temperature' == temperature * rate
    ensures n < budget
    ensures Schedule(initial, rate, stop, budget, n', temperature')
  {
    ScheduleNext(initial, rate, stop, budget, n, temperature);
  }

  /** When the test fails, the loop ran exactly `n` times. */
  lemma ScheduleDone(initial: real, rate: real, stop: real, budget: nat, n: nat, temperature: real)
    requires Schedule(initial, rate, stop, budget, n, temperature) && !(temperature > stop)
    ensures RanFor(initial, rate, stop, n)
  {
  }

  /** A loop of this shape runs a number of times fixed by its schedule. */
  lemma RanForUnique(initial: real, rate: real, stop: real, n: nat, m: nat)
    requires RanFor(initial, rate, stop, n) && RanFor(initial, rate, stop, m)
    ensures n == m
  {
    StayedAboveAll(initial, rate, stop, n);
    StayedAboveAll(initial, rate, stop, m);
    assert n < m ==> Cooled(initial, rate, n) > stop;
    assert m < n ==> Cooled(initial, rate, m) > stop;
  }

  /** Started at or below `stop`, the loop does not run at all. */
  lemma ColdStartRunsNothing(initial: real, rate: real, stop: real, n: nat)
    requires RanFor(initial, rate, stop, n) && initial <= stop
    ensures n == 0
  {
    StayedAboveAll(initial, rate, stop, n);
    assert n > 0 ==> Cooled(initial, rate, 0) > stop;
  }

  /** The schedule of the app.py endpoint, 1000 cooled by 0.99 down to 1,
      ends. */
  lemma DefaultScheduleEnds()
    ensures exists k: nat :: Cooled(1000.0, 0.99, k) <= 1.0
  {
    CoolingEnds(1000.0, 0.99, 1.0);
  }
}

/** What an annealing run remembers as its best route. */
module BestRecord {
  /** The position of the best route among the routes a run held, found the
      way the annealers find it: the first route is the best at the start,
      and a later route replaces the best only when strictly cheaper. */
  function BestIndex<T>(visited: seq<seq<T>>, cost: seq<T> -> real): (m: nat)
    requires |visited| > 0
    ensures m < |visited|
  {
    if |visited| == 1 then 0
    else
      var m := BestIndex(visited[..|visited| - 1], cost);
      if cost(visited[|visited| - 1]) < cost(visited[m]) then |visited| - 1 else m
  }

  /** One more route replaces the best exactly when it is strictly cheaper. */
  lemma BestIndexExtend<T>(visited: seq<seq<T>>, cost: seq<T> -> real, next: seq<T>)
    requires |visited| > 0
    ensures var m := BestIndex(visited, cost);
      BestIndex(visited + [next], cost) == if cost(next) < cost(visited[m]) then |visited| else m
  {
    assert (visited + [next])[..|visited|] == visited;
  }

  /** `routes[m]` is the first of the cheapest routes in `routes`. */
  ghost predicate FirstCheapest<T>(routes: seq<seq<T>>, cost: seq<T> -> real, m: nat)
  {
    && m < |routes|
    && (forall k :: 0 <= k < |routes| ==> cost(routes[m]) <= cost(routes[k]))
    && (forall k :: 0 <= k < m ==> cost(routes[m]) < cost(routes[k]))
  }

  /** Replacing the best only on a strict improvement keeps the first of the
      cheapest routes seen: its cost is the minimum over the whole run. */
  lemma {:induction false} BestIndexIsFirstCheapest<T>(visited: seq<seq<T>>, cost: seq<T> -> real)
    requires |visited| > 0
    ensures FirstCheapest(visited, cost, BestIndex(visited, cost))
  {
    if |visited| > 1 {
      var front := visited[..|visited| - 1];
      BestIndexIsFirstCheapest(front, cost);
      assert forall k :: 0 <= k < |front| ==> front[k] == visited[k];
    }
  }

  /** The best route costs no more than the first. */
  lemma BestNoWorseThanFirst<T>(visited: seq<seq<T>>, cost: seq<T> -> real)
    requires |visited| > 0
    ensures cost(visited[BestIndex(visited, cost)]) <= cost(visited[0])
  {
    BestIndexIsFirstCheapest(visited, cost);
  }

  /** The best cost never rises: the best of a longer run costs at most the
      best of any of its beginnings. */
  lemma BestNeverRises<T>(visited: seq<seq<T>>, cost: seq<T> -> real, n: nat)
    requires 0 < n <= |visited|
    ensures cost(visited[BestIndex(visited, cost)]) <= cost(visited[BestIndex(visited[..n], cost)])
  {
    BestIndexIsFirstCheapest(visited, cost);
    var m := BestIndex(visited[..n], cost);
    assert visited[..n][m] == visited[m];
  }
}
