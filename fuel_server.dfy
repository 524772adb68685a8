/**
 * The Express server of api/server.js apart from its route search: the
 * weighted fuel predictor behind /api/predict, the fuel total that
 * /api/optimize-route reports for the route it found, and the sample
 * dataset served by /api/data.
 */
module FuelServer {
  import opened Oracles
  import opened Cooling
  import opened BestRecord
  import opened AnnealingRun
  import opened EuclideanAnnealer

  /** The fields of a request body the predictor reads. */
  datatype TowInput = TowInput(
    enginePower: real,
    distance: real,
    towingSpeed: real,
    towSize: real,
    windSpeed: real,
    waveHeight: real)

  /** Base fuel consumption in litres. */
  const BaseConsumption: real := 100.0

  /** predictFuelConsumption: the base plus each field times its weight.
      Every weight is positive, so fields that are all non-negative never
      predict less than the base consumption, and predict exactly it only
      when they are all zero. */
  function PredictFuelConsumption(input: TowInput): (litres: real)
    ensures 0.0 <= input.enginePower && 0.0 <= input.distance && 0.0 <= input.towingSpeed
            && 0.0 <= input.towSize && 0.0 <= input.windSpeed && 0.0 <= input.waveHeight
            ==> BaseConsumption <= litres
                && (litres == BaseConsumption <==> input == TowInput(0.0, 0.0, 0.0, 0.0, 0.0, 0.0))
  {
    BaseConsumption
    + input.enginePower * 0.05
    + input.distance * 0.8
    + input.towingSpeed * 0.4
    + input.towSize * 0.003
    + input.windSpeed * 0.2
    + input.waveHeight * 0.3
  }

  /** With every field zero the prediction is the base consumption. */
  lemma PredictionOfZeroInput()
    ensures PredictFuelConsumption(TowInput(0.0, 0.0, 0.0, 0.0, 0.0, 0.0)) == 100.0
  {
  }

  /** Raising any field never lowers the prediction: every weight is
      positive. */
  lemma PredictionMonotone(a: TowInput, b: TowInput)
    requires a.enginePower <= b.enginePower && a.distance <= b.distance && a.towingSpeed <= b.towingSpeed
    requires a.towSize <= b.towSize && a.windSpeed <= b.windSpeed && a.waveHeight <= b.waveHeight
    ensures PredictFuelConsumption(a) <= PredictFuelConsumption(b)
    ensures PredictFuelConsumption(a) == PredictFuelConsumption(b) <==> a == b
  {
  }

  /** The prediction grows by 0.8 litres per unit of distance. */
  lemma PredictionPerDistance(input: TowInput)
    ensures PredictFuelConsumption(input)
         == PredictFuelConsumption(input.(distance := 0.0)) + 0.8 * input.distance
  {
  }

  /** The body of a POST to /api/optimize-route: the points to order and the
      tow's parameters, shared by every leg. */
  datatype RouteRequest = RouteRequest(
    points: seq<Point>,
    enginePower: real,
    towingSpeed: real,
    towSize: real,
    windSpeed: real,
    waveHeight: real)

  /** The predictor's input for one leg of length `distance`. */
  function LegInput(request: RouteRequest, distance: real): TowInput
  {
    TowInput(request.enginePower, distance, request.towingSpeed, request.towSize, request.windSpeed,
             request.waveHeight)
  }

  /** The predicted fuel of a route: one prediction per leg, summed in
      order. */
  function FuelTotal(route: seq<Point>, request: RouteRequest, sqrt: real -> real): real
  {
    if |route| < 2 then 0.0
    else FuelTotal(route[..|route| - 1], request, sqrt)
         + PredictFuelConsumption(LegInput(request, Distance(route[|route| - 2], route[|route| - 1], sqrt)))
  }

  /**
   * The handler's loop: for each leg, its Euclidean distance (the same
   * formula as the annealer's `distance`) and the prediction for it, added
   * to the total.
   */
  method TotalFuelConsumption(route: seq<Point>, request: RouteRequest, sqrt: real -> real)
    returns (totalFuelConsumption: real)
    ensures totalFuelConsumption == FuelTotal(route, request, sqrt)
  {
    totalFuelConsumption := 0.0;
    var i := 0;
    while i < |route| - 1
      invariant 0 <= i && (|route| == 0 ==> i == 0 && totalFuelConsumption == 0.0)
      invariant |route| > 0 ==> i <= |route| - 1 && totalFuelConsumption == FuelTotal(route[..i + 1], request, sqrt)
    {
      var distance := Distance(route[i], route[i + 1], sqrt);
      var prediction := PredictFuelConsumption(LegInput(request, distance));
      assert route[..i + 2][..i + 1] == route[..i + 1];
      totalFuelConsumption := totalFuelConsumption + prediction;
      i := i + 1;
    }
    if |route| > 0 {
      assert route[..i + 1] == route;
    }
  }

  /** The predicted fuel of a route is a fixed amount per leg plus 0.8 per
      unit of the route's length. */
  lemma {:induction false} FuelTotalIsAffine(route: seq<Point>, request: RouteRequest, sqrt: real -> real)
    ensures FuelTotal(route, request, sqrt)
         == (if |route| < 2 then 0.0 else (|route| - 1) as real * PredictFuelConsumption(LegInput(request, 0.0)))
            + 0.8 * TotalDistance(route, sqrt)
  {
    if |route| >= 2 {
      var front := route[..|route| - 1];
      FuelTotalIsAffine(front, request, sqrt);
      PredictionPerDistance(LegInput(request, Distance(route[|route| - 2], route[|route| - 1], sqrt)));
    }
  }

  /** Of two orderings of the same points, the shorter one is predicted to
      burn no more fuel. */
  lemma ShorterUsesLessFuel(a: seq<Point>, b: seq<Point>, request: RouteRequest, sqrt: real -> real)
    requires |a| == |b|
    requires TotalDistance(a, sqrt) <= TotalDistance(b, sqrt)
    ensures FuelTotal(a, request, sqrt) <= FuelTotal(b, request, sqrt)
  {
    FuelTotalIsAffine(a, request, sqrt);
    FuelTotalIsAffine(b, request, sqrt);
  }

  /**
   * The /api/optimize-route handler: the route search with its default
   * schedule (temperature 1000, cooling rate 0.003) on the request's points,
   * then the fuel total of the route it returns. The route is the first
   * shortest route of the run that schedule and the draws determine, an
   * ordering of the points no longer than the order given, and so predicted
   * to burn no more fuel than it.
   */
  method OptimizeRoute(request: RouteRequest, random: nat -> real, exp: real -> real, sqrt: real -> real)
    returns (optimizedRoute: seq<Point>, fuelConsumption: real, ghost visited: seq<seq<Point>>,
             ghost swaps: seq<(nat, nat)>, ghost candidates: seq<seq<Point>>, ghost draws: seq<nat>)
    requires IsUniformStream(random)
    ensures Run(SettingOf(1000.0, 0.003, random, exp), visited, swaps, candidates, draws, EnergyOf(sqrt))
    ensures visited[0] == request.points && draws[0] == 0
    ensures RanFor(1000.0, CoolingFactor(0.003), 1.0, |swaps|)
    ensures optimizedRoute == visited[BestIndex(visited, EnergyOf(sqrt))]
    ensures multiset(optimizedRoute) == multiset(request.points)
    ensures TotalDistance(optimizedRoute, sqrt) <= TotalDistance(request.points, sqrt)
    ensures fuelConsumption == FuelTotal(optimizedRoute, request, sqrt)
    ensures fuelConsumption <= FuelTotal(request.points, request, sqrt)
  {
    optimizedRoute, visited, swaps, candidates, draws :=
      SimulatedAnnealing(request.points, 1000.0, 0.003, random, exp, sqrt);
    ResultIsShortestHeld(request.points, SettingOf(1000.0, 0.003, random, exp), sqrt, optimizedRoute,
                         visited, swaps, candidates, draws);
    fuelConsumption := TotalFuelConsumption(optimizedRoute, request, sqrt);
    assert |optimizedRoute| == |request.points| by {
      assert |optimizedRoute| == |multiset(optimizedRoute)| == |multiset(request.points)|;
    }
    ShorterUsesLessFuel(optimizedRoute, request.points, request, sqrt);
  }

  /** One record of the sample dataset. */
  datatype SampleRecord = SampleRecord(
    id: int,
    engineType: string,
    enginePower: int,
    fuelConsumption: int,
    distance: int,
    towingSpeed: int,
    towSize: int,
    windSpeed: int,
    waveHeight: int,
    efficiency: real,
    maintenanceStatus: string)

  const EngineTypes: seq<string> := ["Diesel", "Electric", "Hybrid"]
  const MaintenanceStatuses: seq<string> := ["Good", "Fair", "Needs Service"]

  /** The number of records generated at start-up. */
  const DefaultSampleCount: nat := 100

  /** Record `i` as built from draws 10 i .. 10 i + 9, taken in the order of
      the object literal's fields. */
  function SampleRecordAt(random: nat -> real, i: nat): SampleRecord
    requires IsUniformStream(random)
  {
    var d := 10 * i;
    SampleRecord(
      i + 1,
      EngineTypes[ScaledIndex(random(d), 3)],
      ScaledIndex(random(d + 1), 2000) + 500,
      ScaledIndex(random(d + 2), 500) + 100,
      ScaledIndex(random(d + 3), 100) + 10,
      ScaledIndex(random(d + 4), 10) + 5,
      ScaledIndex(random(d + 5), 5000) + 1000,
      ScaledIndex(random(d + 6), 15) + 1,
      ScaledIndex(random(d + 7), 5) + 1,
      random(d + 8) * 20.0 + 80.0,
      MaintenanceStatuses[ScaledIndex(random(d + 9), 3)])
  }

  /** generateSampleData: `count` records, the i-th with id i + 1. */
  method GenerateSampleData(count: nat, random: nat -> real) returns (dataset: seq<SampleRecord>)
    requires IsUniformStream(random)
    ensures |dataset| == count
    ensures forall i :: 0 <= i < count ==> dataset[i] == SampleRecordAt(random, i)
  {
    dataset := [];
    var draw := 0;
    for i := 0 to count
      invariant |dataset| == i && draw == 10 * i
      invariant forall k :: 0 <= k < i ==> dataset[k] == SampleRecordAt(random, k)
    {
      var record := SampleRecord(
        i + 1,
        EngineTypes[ScaledIndex(random(draw), 3)],
        ScaledIndex(random(draw + 1), 2000) + 500,
        ScaledIndex(random(draw + 2), 500) + 100,
        ScaledIndex(random(draw + 3), 100) + 10,
        ScaledIndex(random(draw + 4), 10) + 5,
        ScaledIndex(random(draw + 5), 5000) + 1000,
        ScaledIndex(random(draw + 6), 15) + 1,
        ScaledIndex(random(draw + 7), 5) + 1,
        random(draw + 8) * 20.0 + 80.0,
        MaintenanceStatuses[ScaledIndex(random(draw + 9), 3)]);
      dataset := dataset + [record];
      draw := draw + 10;
    }
  }

  /** `const dataset = generateSampleData()`: the dataset /api/data serves,
      generated once at start-up with the default count, holds 100 records
      with ids 1 to 100, each with an engine type and a maintenance status
      from the generator's lists. */
  method StartupDataset(random: nat -> real) returns (dataset: seq<SampleRecord>)
    requires IsUniformStream(random)
    ensures |dataset| == DefaultSampleCount
    ensures forall i :: 0 <= i < |dataset| ==>
      && dataset[i] == SampleRecordAt(random, i)
      && dataset[i].id == i + 1
      && dataset[i].engineType in EngineTypes
      && dataset[i].maintenanceStatus in MaintenanceStatuses
  {
    dataset := GenerateSampleData(DefaultSampleCount, random);
    forall i | 0 <= i < |dataset|
      ensures dataset[i].id == i + 1
      ensures dataset[i].engineType in EngineTypes && dataset[i].maintenanceStatus in MaintenanceStatuses
    {
      SampleRecordInRange(random, i);
    }
  }

  /** Every generated record lies in the ranges the generator draws from;
      each integer range excludes its upper end (power 500 to 2499 kW, not
      2500), and the efficiency lies in [80, 100). */
  lemma SampleRecordInRange(random: nat -> real, i: nat)
    requires IsUniformStream(random)
    ensures var r := SampleRecordAt(random, i);
      && r.id == i + 1
      && r.engineType in EngineTypes
      && 500 <= r.enginePower < 2500
      && 100 <= r.fuelConsumption < 600
      && 10 <= r.distance < 110
      && 5 <= r.towingSpeed < 15
      && 1000 <= r.towSize < 6000
      && 1 <= r.windSpeed < 16
      && 1 <= r.waveHeight < 6
      && 80.0 <= r.efficiency < 100.0
      && r.maintenanceStatus in MaintenanceStatuses
  {
    var u := random(10 * i + 8);
    assert 0.0 <= u < 1.0;
    assert u * 20.0 < 20.0;
  }
}
