# Towing-route fuel optimisation, modelled in Dafny

This project models the computational core of a towing-route fuel optimiser. The repository has several back ends:

- A FastAPI service (`api/app.py`). It orders waypoints by simulated annealing. Each leg's fuel is computed from the waypoint the leg departs from.
- An Express server (`api/server.js`) and a variant of it (`api/optimize-route.js`). They order points by simulated annealing on the Euclidean length of the route. The server also predicts fuel with a fixed weighted sum and serves a random sample dataset.
- A client-side generic annealer (`app/utils.ts`) that takes its cost function from the caller.
- A Flask service (`api/fuel_api.py`) whose `preprocess_input` validates a prediction request and turns it into a row of ten numbers.

Randomness, `exp` and `sqrt` are parameters of the model:

- `random: nat -> real` is the stream of draws in [0, 1). An annealer consumes it through a draw counter, in the order the source calls `Math.random()` or `random.uniform`.
- `exp` is arbitrary in the annealers' own contracts. The lemmas that say a no-dearer candidate is always taken (`AnnealingRun.MoveTakesNoDearer`, `AnnealingRun.RejectedWereDearer`) assume only that it is at least 1 on non-negative arguments, as `Math.exp` and `math.exp` are.
- `sqrt` is assumed to be the non-negative square root (with `sqrt(0) == 0` stated alongside).

Numbers are mathematical reals.

Every annealing loop is modelled as a `while` loop over the source's own variables: the current and best routes, their costs, the temperature and a draw counter. Each loop body builds its candidate by swapping two slots of a fresh array copy. Alongside the real state, each loop keeps a ghost record of the run:

- the routes it held, `visited`;
- the positions it swapped;
- the candidates it built;
- the first draw each iteration took, `draws`.

The loop is proved against that record. `AnnealingRun.Run` says that iteration k, at temperature `Cooled(initial, rate, k)`, is the move its draws determine (`AnnealingRun.Move`):

- the positions come from draws d and d + 1;
- the candidate is the route with them swapped;
- the candidate is taken exactly when the source's test accepts it, with draw d + 2 for the Metropolis test;
- the next iteration starts at draw d + 2 when a strictly cheaper candidate was taken without that draw, and d + 3 otherwise.

`BestRecord.BestIndex` says that the best route is the one the strict `<` update selects. Termination follows from the geometric schedule in `Cooling`. The annealers' postconditions state, among other things:

- the run is the one the draws, `exp` and the schedule determine from the start, so the same inputs give the same result (`AnnealingRun.RunDetermined`);
- the returned route is an ordering of the input;
- it is the first cheapest route the run held;
- the loop ran exactly as many times as the schedule allows (`Cooling.RanFor`).

Three points where a reader might expect something other than what the code does. The model follows the code:

- **Fewer than two waypoints.** A reader might expect an empty or one-waypoint list to come back as it is. `simulated_annealing` in `api/app.py` calls `random.sample(range(n), 2)`, which raises for fewer than two waypoints. It does so as soon as the loop runs, so a list of 0 or 1 waypoints is an error under the endpoint's schedule. `RouteOptimizer.OptimizeRoute` fails exactly when there are fewer than two waypoints.
- **Reversing a two-waypoint route.** A reader might expect the two orders of a pair to cost differently. Two different waypoints need not give `cost([A, B]) != cost([B, A])`. The cost of a two-waypoint route is the fuel term of its first waypoint, and different attributes can give equal terms. `FuelCost.DifferentWaypointsSameCost` exhibits such a pair. `FuelCost.TwoWaypointOrders` states the exact condition.
- **Schedule parameters.** A reader might expect them to be validated. The code does not validate them.

## Model

| member | source | states |
|---|---|---|
| Oracles.ScaledIndex | app/utils.ts:42-43 | `Math.floor(Math.random() * n)` is a valid position of a non-empty array of length n |
| Oracles.Metropolis | api/app.py:70 | the acceptance test `u < exp((current - new) / T)`; a candidate no dearer than the current route always passes |
| Oracles.SampleTwo | api/app.py:65 | `random.sample(range(n), 2)` yields two distinct positions below n |
| Permutation.Swap | api/app.py:66 | the swap exchanges the two positions, leaves every other position alone, and keeps the multiset |
| Permutation.Neighbour | app/utils.ts:41-44 | the JavaScript neighbour is a reordering of the route |
| Permutation.SwappedCopy | api/app.py:64-66 | copying the route and swapping two slots of the copy in place gives exactly the swapped route |
| Cooling.CooledIsPow | api/app.py:80 | k coolings by `cooling_rate` scale the temperature by `cooling_rate`^k |
| Cooling.PowBernoulli | api/app.py:80 | Bernoulli's inequality for the cooling factor, the bound behind termination |
| Cooling.CoolingEnds | api/app.py:63-80 | with 0 < rate < 1 and a positive stopping temperature, `while temperature > stopping_temp` ends after finitely many coolings |
| Cooling.CoolOnce | api/app.py:80 | one more cooling from above the stopping temperature extends the record of the schedule |
| Cooling.StayedAboveAll | app/utils.ts:39 | every temperature at which the loop body ran was above the stopping temperature |
| Cooling.ScheduleStart | api/app.py:61-63 | before the first test the temperature is the initial one, and a schedule that starts above the stopping temperature has a count by which it is at or below it |
| Cooling.ScheduleNext | api/app.py:63-80 | a pass of the loop body happens only from a start above the stopping temperature and before that count; cooling once more keeps the schedule |
| Cooling.ScheduleCooled | api/server.js:84-101 | the same, for the count and temperature the pass leaves behind |
| Cooling.ScheduleDone | api/app.py:63 | when the test fails, the loop ran exactly as many times as the schedule allows |
| Cooling.RanForUnique | api/app.py:63-80 | the number of iterations is determined by the schedule alone |
| Cooling.ColdStartRunsNothing | app/utils.ts:39 | a start at or below the stopping temperature runs no iteration |
| Cooling.DefaultScheduleEnds | api/app.py:85-87 | the endpoint's schedule (1000, 0.99, 1) ends |
| BestRecord.BestIndex | api/app.py:75-77 | the best route is at a position of the run |
| BestRecord.BestIndexExtend | api/app.py:75-77 | a new current route replaces the best exactly when strictly cheaper |
| BestRecord.BestIndexIsFirstCheapest | app/utils.ts:55-58 | the best route costs no more than any route the run held, and strictly less than every route held before it |
| BestRecord.BestNoWorseThanFirst | api/app.py:58-59 | the best costs no more than the starting route |
| BestRecord.BestNeverRises | api/app.py:75-77 | the best cost never increases as the run goes on |
| AnnealingRun.DrawnPositions | app/utils.ts:42-43 | the two positions from draws d and d + 1 lie in a non-empty route; under `random.sample` (api/app.py:65) they are distinct |
| AnnealingRun.Accepts | api/app.py:70 | `new_cost < current_cost or u < exp(...)`: a strictly cheaper candidate is taken when tested first; with `exp >= 1` on non-negatives a no-dearer one always is; without the cheaper test it is the Metropolis test alone |
| AnnealingRun.DrawsUsedShortCircuit | api/app.py:70 | the draw count follows the short-circuit `or`: an iteration counted at two draws accepts whatever a third draw would be, and one counted at three decides exactly by the Metropolis test on that draw |
| AnnealingRun.RunExtend | api/app.py:63-80 | a run followed by the move its next draws and temperature determine is a run |
| AnnealingRun.RunIsMoves | api/app.py:63-80 | iteration k of a run is the move determined by draw `draws[k]` and temperature `Cooled(initial, rate, k)`, ending at draw `draws[k + 1]` |
| AnnealingRun.RunMoveAt | api/app.py:63-80 | the same for one given iteration |
| AnnealingRun.MoveKeepsElements | api/app.py:64-72 | a move swaps positions in range, distinct ones under `random.sample`, keeps the current route or takes the candidate, and only reorders the route |
| AnnealingRun.MoveTakesNoDearer | app/utils.ts:49 | with `exp >= 1` on non-negatives, a candidate no dearer than the current route is taken, under every rule |
| AnnealingRun.ChainKeepsElements | api/app.py:63-80 | routes each reordering the one before all reorder the first |
| AnnealingRun.RunKeepsElements | api/app.py:56-82 | every route a run holds is an ordering of its starting route |
| AnnealingRun.RejectedWereDearer | app/utils.ts:49 | with `exp >= 1` on non-negatives, a candidate a run did not take was strictly dearer, the route stayed unchanged, and its Metropolis draw failed (also api/app.py:70 and api/server.js:93) |
| AnnealingRun.MoveDetermined | api/app.py:64-72 | two moves from the same route under the same draws, `exp` and temperature are the same move |
| AnnealingRun.MovesAgreeUpTo | api/app.py:63-80 | two runs from the same route and first draw agree on the routes held and the draws taken up to any iteration |
| AnnealingRun.RunDetermined | api/app.py:63-80 | two runs under one setting from the same route and first draw, of the same length, are identical |
| FuelCost.LegFuel | api/app.py:45-49 | a leg's fuel is at least the calm-water fuel `power / (0.2 * 0.85)` when the attributes are non-negative |
| FuelCost.CostFunction | api/app.py:30-52 | the loop's total is the sum of the departing waypoints' fuel terms: 0 for fewer than two waypoints, and the great-circle distance is never used |
| FuelCost.CostIsDepartureSum | api/app.py:32-50 | the cost is the fuel of every waypoint except the last |
| FuelCost.DepartureSumPermutation | api/app.py:38-50 | the summed fuel of a set of waypoints does not depend on their order |
| FuelCost.CostDeterminedByLast | api/app.py:32-50 | among orderings of the same waypoints, the cost is the total fuel minus that of the last waypoint |
| FuelCost.SameLastSameCost | api/app.py:32-50 | two orderings that end at the same waypoint cost the same |
| FuelCost.UniformFuelCost | api/app.py:45-50 | waypoints that burn equally cost (n - 1) legs' worth in every order |
| FuelCost.ThreeCalmWaypoints | api/app.py:11-12 | three calm waypoints of power 100 cost 2 * 100 / (0.2 * 0.85) in every order (SFC 0.2, efficiency 0.85) |
| FuelCost.TwoWaypointOrders | api/app.py:32-50 | `[A, B]` costs A's fuel; the two orders cost the same iff A and B burn the same |
| FuelCost.DifferentWaypointsSameCost | api/app.py:45-49 | distinct waypoints can cost the same in both orders |
| FuelCost.CostNonNegative | api/app.py:45-50 | non-negative attributes give a non-negative cost |
| RouteOptimizer.Iterate | api/app.py:64-72 | one iteration is the `Move` its draws determine: `random.sample` positions from draws d and d + 1, taken when cheaper (next draw d + 2) or else iff the Metropolis test on draw d + 2 passes (next draw d + 3) |
| RouteOptimizer.Step | api/app.py:63-80 | the iteration at the temperature `Cooled(initial, rate, k)` is that move from the current route and draw; the record and the draw counter grow by it; the best cost never rises and is at most the new current cost |
| RouteOptimizer.SimulatedAnnealing | api/app.py:55-82 | fails iff the loop runs on fewer than two waypoints; otherwise the run is the one the draws, `exp` and the schedule determine from the shuffle, ran for exactly the schedule's iterations, and returns the first cheapest route held, with its cost, as an ordering of the input |
| RouteOptimizer.OptimizeRoute | api/app.py:85-88 | fails iff fewer than two waypoints; otherwise returns the first cheapest route of the run at temperature 1000 cooled by 0.99 down to 1 (`Run` at `SettingOf(1000.0, 0.99, …)` from the shuffle at draw 0, for the `RanFor` number of iterations), a reordering no dearer than the shuffle, whose cost is the total fuel minus that of its last waypoint |
| GenericAnnealer.Iterate | app/utils.ts:41-52 | one iteration is the `Move` its draws determine: positions `floor(u * n)` from draws d and d + 1 (they may coincide), taken when cheaper (next draw d + 2) or else iff the Metropolis test on draw d + 2 passes (next draw d + 3) |
| GenericAnnealer.Step | app/utils.ts:39-62 | the iteration at the temperature `Cooled(initial, rate, k)` is that move from the current route and draw; the record and the draw counter grow by it; the best cost never rises and is at most the new current cost |
| GenericAnnealer.SimulatedAnnealing | app/utils.ts:32-65 | the run is the one the draws, `exp` and the schedule determine from the data, runs exactly the schedule's iterations, and returns the first cheapest route held, with its cost, as an ordering of the data |
| GenericAnnealer.SameDrawsSameResult | app/utils.ts:32-65 | the same data, schedule, cost function, draws and `exp` give the same result |
| GenericAnnealer.ResultIsCheapestHeld | app/utils.ts:54-64 | the returned cost is at most that of the data and of every route the run held |
| GenericAnnealer.ColdStartReturnsData | app/utils.ts:33-39 | a schedule that starts at or below the stopping temperature returns the data and its cost |
| EuclideanAnnealer.Distance | api/server.js:77-82 | with a true square root the distance is non-negative; a point is at `sqrt(0)` from itself |
| EuclideanAnnealer.DistanceIsMetricLike | api/server.js:77-82 | the `distance` helper is non-negative, symmetric, and zero from a point to itself |
| EuclideanAnnealer.TotalDistanceNonNegative | api/server.js:69-75 | a route's length is non-negative |
| EuclideanAnnealer.ReversedSameDistance | api/server.js:69-82 | a route and its reverse have the same length |
| EuclideanAnnealer.CalculateTotalDistance | api/server.js:69-75 | the loop computes the sum of the legs' distances |
| EuclideanAnnealer.Iterate | api/server.js:85-95 | one iteration is the `Move` its draws determine: positions `floor(u * n)` from draws d and d + 1, taken iff the Metropolis test on the lengths with draw d + 2 passes, next draw d + 3 |
| EuclideanAnnealer.Step | api/server.js:84-101 | the iteration at the temperature `Cooled(initial, 1 - coolingRate, k)` is that move from the current route and draw; the best is replaced only when strictly shorter; the best length never rises and is at most the new current route's; the temperature is then multiplied by `1 - coolingRate`, which keeps the schedule |
| EuclideanAnnealer.SimulatedAnnealing | api/server.js:64-105 | cooling by `1 - coolingRate` while above 1, for exactly the schedule's iterations; the run is the one the draws, `exp` and the schedule determine from the points; returns the first shortest route held, as an ordering of the points (the same function as api/optimize-route.js:75-113) |
| EuclideanAnnealer.ResultIsShortestHeld | api/optimize-route.js:105-107 | the returned route is no longer than the given order or any route held (api/server.js:97-99 is the same update) |
| FuelServer.PredictFuelConsumption | api/server.js:33-52 | non-negative fields predict at least the base consumption of 100, and exactly 100 only when all are zero |
| FuelServer.PredictionOfZeroInput | api/server.js:33-52 | an all-zero input predicts the base consumption of 100 |
| FuelServer.PredictionMonotone | api/server.js:36-51 | raising any input never lowers the prediction, and leaves it equal only if nothing changed |
| FuelServer.PredictionPerDistance | api/server.js:45-51 | each unit of distance adds 0.8 to the prediction |
| FuelServer.TotalFuelConsumption | api/server.js:111-128 | the handler's loop sums one prediction per leg of the optimised route |
| FuelServer.FuelTotalIsAffine | api/server.js:111-128 | the route's fuel is (legs) times the zero-distance prediction plus 0.8 times the route's length |
| FuelServer.ShorterUsesLessFuel | api/server.js:107-128 | of two orderings of equal length, the shorter is predicted to burn no more |
| FuelServer.OptimizeRoute | api/server.js:107-133 | the route returned is the first shortest route of the run with the defaults 1000 / 0.003 (`Run` at `SettingOf(1000.0, 0.003, …)` from the given points at draw 0, for the `RanFor` number of iterations at factor 0.997), an ordering of the points no longer than the given order, and its reported fuel is its `FuelTotal` and no more than the given order's |
| FuelServer.GenerateSampleData | api/server.js:10-28 | `count` records, record i built from draws 10i to 10i + 9 in field order |
| FuelServer.StartupDataset | api/server.js:30 | the dataset made at start-up has the default 100 records, ids 1 to 100, each with a listed engine type and maintenance status |
| FuelServer.SampleRecordInRange | api/server.js:13-25 | every record has id i + 1 and fields within the drawn ranges (upper ends excluded) |
| FuelApi.PythonTypeName | api/fuel_api.py:96 | `str(type(value))` is a `<class '...'>` string naming `bool`, `int` or `float` exactly when the value is a number |
| FuelApi.CheckFields | api/fuel_api.py:90-96 | passes iff every field is present and numeric, presence checked before type |
| FuelApi.PreprocessInput | api/fuel_api.py:73-113 | succeeds iff all ten fields are present and numeric, giving one row of their float values in field order; otherwise the message starts with "Input preprocessing failed: " |
| FuelApi.FirstMissingReported | api/fuel_api.py:77-92 | the first absent field, after valid ones, is reported as "Missing required field: <name>" |
| FuelApi.FirstBadTypeReported | api/fuel_api.py:90-96 | a present non-numeric field, after valid ones, is reported with its Python type, before any later missing field |
| FuelApi.CheckReadsOnlyFields | api/fuel_api.py:90-96 | the check reads nothing but the listed fields |
| FuelApi.ExtraFieldsIgnored | api/fuel_api.py:90-110 | objects that agree on the required fields give the same outcome |
| FuelApi.BooleansAccepted | api/fuel_api.py:94-110 | `bool` passes the `(int, float)` check, and `True` becomes 1.0 |

## Left out

- `great_circle` from geopy, used in `api/app.py`, is a parameter of `FuelCost.CostFunction`. Its result never reaches the cost. The model assumes that it returns for every pair of waypoints. geopy raises `ValueError` for a latitude outside [-90, 90] or a non-finite coordinate, which the request's `float` fields admit; the source then fails at the first cost evaluation (api/app.py:57), while the model returns a route. That error is not modelled. The haversine `greatCircleDistance` of `app/utils.ts` is not part of this model.
- Floating point: all arithmetic is on reals. Rounding, overflow, NaN and infinities are not modelled. This includes `float()` of an integer beyond the double range, which raises in `preprocess_input`.
- `df.sample(frac=1)` enters `RouteOptimizer.SimulatedAnnealing` as a given ordering of the input. How the shuffle is drawn is not modelled.
- `random.sample(range(n), 2)` is modelled by `Oracles.SampleTwo`. It gives two distinct positions from two draws, as a uniform choice without replacement would. CPython's own selection algorithm is not modelled.
- On an empty array the JavaScript annealers assign `newSolution[0] = undefined`, so the candidate has length 1. The model keeps the empty route instead. For `api/server.js` the returned route is the same (the empty one). For `app/utils.ts` it depends on what the caller's cost function does with `[undefined]`.
- `RouteOptimizer.SimulatedAnnealing`, `GenericAnnealer.SimulatedAnnealing` and `EuclideanAnnealer.SimulatedAnnealing` require the cooling rate to lie strictly between 0 and 1 (and a positive stopping temperature) whenever the loop runs at all. Without that the source's loop need not end.
- `EuclideanAnnealer.SimulatedAnnealing` computes `1 - coolingRate` (`EuclideanAnnealer.CoolingFactor`) once, before the loop. The source recomputes it on every iteration; the two are the same number.
- Only the `latitude` and `longitude` of a point are modelled. Other fields the JavaScript spreads along are not.
- `FuelServer.PredictFuelConsumption` takes six numbers. JavaScript on a request body that lacks a field (`undefined` giving `NaN`) is not modelled.
- `preprocess_input` takes a JSON object, a map from names to values. Other JSON documents and the handler's empty-body check are HTTP handling and not part of this model.
- `FuelServer.StartupDataset` and the annealer draw from separate streams in the model; in the server they share `Math.random()`.
- HTTP, CORS and logging are left out. So are the ML model of `api/fuel_api.py` (file loading, sklearn, Keras, the mock prediction) and the TensorFlow.js training in `api/optimize-route.js`: these are library calls and I/O.
- `app/page.tsx` is user interface and not part of this model.
