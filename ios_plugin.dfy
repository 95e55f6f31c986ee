/**
 * The iOS plugin calls over HealthKit: the permission request and its
 * assumed result, the bucketed aggregated query, and the workout query with
 * its heart-rate, route and step sub-queries. Every HealthKit query is an
 * input: a function from the query's arguments to what its handler receives.
 */
module IosPlugin {
  import opened Wrappers
  import opened JsonValues
  import opened IosCatalog

  /** A point in time, in whole seconds since 1970. */
  type Instant = int

  /**
   * How a plugin call ends: resolved, rejected, or never settled (a handler
   * that the code waits for is never called).
   */
  datatype Outcome = Resolve(data: JsObject) | Reject(message: string) | Unsettled

  // ---------------------------------------------------------------------
  // requestHealthPermissions
  // ---------------------------------------------------------------------

  /** What `requestAuthorization` hands its completion handler. */
  datatype AuthorizationResult = AuthorizationResult(success: bool, error: Option<string>)

  /** The resolved object: every requested string mapped to the same assumed answer. */
  function AssumedGrants(permissions: seq<string>, granted: bool): JsObject
  {
    map["permissions" := JObj(map p | p in permissions :: JBool(granted))]
  }

  /**
   * `permissions.forEach { result[$0] = granted }`: one entry per distinct
   * requested string, known to the type table or not, all equal to `granted`.
   */
  method FillResult(permissions: seq<string>, granted: bool) returns (result: map<string, bool>)
    ensures result.Keys == set i | 0 <= i < |permissions| :: permissions[i]
    ensures forall p :: p in result ==> result[p] == granted
  {
    result := map[];
    var i := 0;
    while i < |permissions|
      invariant 0 <= i <= |permissions|
      invariant result.Keys == set k | 0 <= k < i :: permissions[k]
      invariant forall p :: p in result ==> result[p] == granted
    {
      result := result[permissions[i] := granted];
      i := i + 1;
    }
  }

  /**
   * `requestHealthPermissions`: rejects a `permissions` value that is not an
   * array of strings; otherwise asks once for the union of the types of all
   * strings, then resolves with every string granted on success, rejects
   * with the handler's error on failure, and resolves with every string
   * denied on a failure without an error.
   */
  method RequestHealthPermissions(permissions: Option<seq<string>>, authorize: set<HKObjectType> -> AuthorizationResult)
    returns (outcome: Outcome)
    ensures permissions.None? ==> outcome == Reject("Invalid permissions format")
    ensures permissions.Some? && authorize(RequestedTypes(permissions.value)).success ==>
              outcome == Resolve(AssumedGrants(permissions.value, true))
    ensures permissions.Some? && !authorize(RequestedTypes(permissions.value)).success ==>
              var error := authorize(RequestedTypes(permissions.value)).error;
              outcome == if error.Some? then Reject("Authorization failed: " + error.value)
                         else Resolve(AssumedGrants(permissions.value, false))
  {
    if permissions.None? {
      return Reject("Invalid permissions format");
    }
    var types := RequestedTypes(permissions.value);
    var auth := authorize(types);
    if auth.success {
      var result := FillResult(permissions.value, true);
      assert (map p | p in result :: JBool(result[p])) == (map p | p in permissions.value :: JBool(true));
      return Resolve(map["permissions" := JObj(map p | p in result :: JBool(result[p]))]);
    } else if auth.error.Some? {
      return Reject("Authorization failed: " + auth.error.value);
    } else {
      var result := FillResult(permissions.value, false);
      assert (map p | p in result :: JBool(result[p])) == (map p | p in permissions.value :: JBool(false));
      return Resolve(map["permissions" := JObj(map p | p in result :: JBool(result[p]))]);
    }
  }

  /**
   * The assumed result answers for exactly the requested strings, including
   * those that ask for no HealthKit type at all.
   */
  lemma AssumedGrantsEchoRequest(permissions: seq<string>, granted: bool, s: string)
    ensures AssumedGrants(permissions, granted)["permissions"].JObj?
    ensures s in AssumedGrants(permissions, granted)["permissions"].fields <==> s in permissions
    ensures s in permissions ==> AssumedGrants(permissions, granted)["permissions"].fields[s] == JBool(granted)
    ensures s in permissions && s !in IosPermissionNames ==> PermissionToHKObjectType(s) == []
  {
    PermissionTypeCount(s);
  }

  // ---------------------------------------------------------------------
  // queryAggregated
  // ---------------------------------------------------------------------

  /** The options of a `queryAggregated` call, each possibly missing. */
  datatype AggregatedCall = AggregatedCall(startDate: Option<string>, endDate: Option<string>, dataType: Option<string>, bucket: Option<string>)

  /** One statistics bucket: its bounds and its cumulative sum, if there is one. */
  datatype Statistics = Statistics(startDate: Instant, endDate: Instant, sum: Option<real>)

  /** What the statistics collection query hands its initial results handler. */
  datatype CollectionResult = CollectionResult(statistics: Option<seq<Statistics>>, error: Option<string>)

  /** The units the plugin converts sums to. */
  datatype HKUnit = Count | Kilocalorie | Second | CountPerMinute

  /** The unit the value branch picks for a data type name, if any. */
  function SampleUnit(dataType: string): Option<HKUnit>
  {
    match dataType
    case "steps" => Some(Count)
    case "active-calories" => Some(Kilocalorie)
    case "hrv" => Some(Second)
    case "resting-heart-rate" => Some(CountPerMinute)
    case "stand-time" => Some(Second)
    case _ => None
  }

  /** `is(compatibleWith:)`: whether a quantity type is measured in the dimension of a unit. */
  function IsCompatible(t: HKObjectType, u: HKUnit): bool
  {
    match t
    case StepCount => u == Count
    case ActiveEnergyBurned => u == Kilocalorie
    case HeartRateVariabilitySDNN => u == Second
    case AppleStandTime => u == Second
    case RestingHeartRate => u == CountPerMinute
    case HeartRate => u == CountPerMinute
    case _ => false
  }

  /**
   * The emitted value of a bucket's sum: the sum in the unit of the data
   * type's branch when the type is compatible with it, and `-1.0` otherwise.
   */
  function SampleValue(dataType: string, t: HKObjectType, sum: real): real
  {
    var unit := SampleUnit(dataType);
    if unit.Some? && IsCompatible(t, unit.value) then sum else -1.0
  }

  /** The `-1.0` placeholder is never emitted for a data type the table accepts. */
  lemma SampleValueIsSum(dataType: string, t: HKObjectType, sum: real)
    requires AggregateTypeToHKQuantityType(dataType) == Some(t)
    ensures SampleValue(dataType, t, sum) == sum
  {
    AggregateTypeRoundTrip(dataType, t);
  }

  /** One aggregated sample: bounds in milliseconds since 1970 and the converted sum. */
  function SampleDict(s: Statistics, dataType: string, t: HKObjectType): Json
    requires s.sum.Some?
  {
    JObj(map["startDate" := JNum((s.startDate * 1000) as real),
             "endDate" := JNum((s.endDate * 1000) as real),
             "value" := JNum(SampleValue(dataType, t, s.sum.value))])
  }

  /** The buckets that have a sum, in enumeration order. */
  function WithSum(stats: seq<Statistics>): seq<Statistics>
  {
    if |stats| == 0 then []
    else if stats[|stats| - 1].sum.Some? then WithSum(stats[..|stats| - 1]) + [stats[|stats| - 1]]
    else WithSum(stats[..|stats| - 1])
  }

  /** The samples the enumeration appends: one per bucket with a sum, in order. */
  function AggregatedSamples(stats: seq<Statistics>, dataType: string, t: HKObjectType): seq<Json>
  {
    if |stats| == 0 then []
    else
      var last := stats[|stats| - 1];
      var init := AggregatedSamples(stats[..|stats| - 1], dataType, t);
      if last.sum.Some? then init + [SampleDict(last, dataType, t)] else init
  }

  /** A bucket is kept exactly when it has a sum. */
  lemma {:induction false} WithSumMembership(stats: seq<Statistics>, s: Statistics)
    ensures s in WithSum(stats) <==> s in stats && s.sum.Some?
  {
    if |stats| > 0 {
      WithSumMembership(stats[..|stats| - 1], s);
      assert stats == stats[..|stats| - 1] + [stats[|stats| - 1]];
    }
  }

  /** Buckets are kept in order: the kept buckets of two runs are the kept buckets of each. */
  lemma {:induction false} WithSumAppend(a: seq<Statistics>, b: seq<Statistics>)
    ensures WithSum(a + b) == WithSum(a) + WithSum(b)
  {
    if |b| == 0 {
      assert a + b == a;
    } else {
      assert (a + b)[..|a + b| - 1] == a + b[..|b| - 1];
      WithSumAppend(a, b[..|b| - 1]);
    }
  }

  /**
   * The samples are the kept buckets, one each and in order: no bucket
   * without a sum becomes a sample, and none is filled in with zero.
   */
  lemma {:induction false} AggregatedSamplesAreKeptBuckets(stats: seq<Statistics>, dataType: string, t: HKObjectType)
    ensures |AggregatedSamples(stats, dataType, t)| == |WithSum(stats)|
    ensures forall k :: 0 <= k < |WithSum(stats)| ==>
              WithSum(stats)[k].sum.Some? && AggregatedSamples(stats, dataType, t)[k] == SampleDict(WithSum(stats)[k], dataType, t)
  {
    if |stats| > 0 {
      AggregatedSamplesAreKeptBuckets(stats[..|stats| - 1], dataType, t);
    }
  }

  /** Every call of the enumeration block, in order. */
  method EnumerateStatistics(stats: seq<Statistics>, dataType: string, t: HKObjectType) returns (aggregatedSamples: seq<Json>)
    ensures aggregatedSamples == AggregatedSamples(stats, dataType, t)
  {
    aggregatedSamples := [];
    var i := 0;
    while i < |stats|
      invariant 0 <= i <= |stats|
      invariant aggregatedSamples == AggregatedSamples(stats[..i], dataType, t)
    {
      assert stats[..i + 1][..i] == stats[..i];
      if stats[i].sum.Some? {
        aggregatedSamples := aggregatedSamples + [SampleDict(stats[i], dataType, t)];
      }
      i := i + 1;
    }
    assert stats[..i] == stats;
  }

  /** The four options are present and both dates parse. */
  predicate AggregatedParametersValid(call: AggregatedCall, parse: string -> Option<Instant>)
  {
    && call.startDate.Some? && call.endDate.Some? && call.dataType.Some? && call.bucket.Some?
    && parse(call.startDate.value).Some? && parse(call.endDate.value).Some?
  }

  /**
   * `queryAggregated`: rejects missing or unparsable parameters, then an
   * unknown data type, then an unknown bucket; rejects with the handler's
   * error; otherwise resolves with the samples of the enumerated buckets
   * (none when the handler receives no collection).
   */
  method QueryAggregated(call: AggregatedCall, parse: string -> Option<Instant>,
                         collect: (HKObjectType, Instant, Instant, Interval) -> CollectionResult)
    returns (outcome: Outcome)
    ensures !AggregatedParametersValid(call, parse) ==> outcome == Reject("Invalid parameters")
    ensures AggregatedParametersValid(call, parse) && AggregateTypeToHKQuantityType(call.dataType.value).None? ==>
              outcome == Reject("Invalid data type")
    ensures AggregatedParametersValid(call, parse) && AggregateTypeToHKQuantityType(call.dataType.value).Some?
            && CalculateInterval(call.bucket.value).None? ==>
              outcome == Reject("Invalid bucket")
    ensures AggregatedParametersValid(call, parse) && AggregateTypeToHKQuantityType(call.dataType.value).Some?
            && CalculateInterval(call.bucket.value).Some? ==>
              var t := AggregateTypeToHKQuantityType(call.dataType.value).value;
              var res := collect(t, parse(call.startDate.value).value, parse(call.endDate.value).value,
                                 CalculateInterval(call.bucket.value).value);
              outcome == if res.error.Some? then Reject("Error fetching aggregated data: " + res.error.value)
                         else Resolve(map["aggregatedData" := JArr(AggregatedSamples(res.statistics.GetOr([]), call.dataType.value, t))])
  {
    if !AggregatedParametersValid(call, parse) {
      return Reject("Invalid parameters");
    }
    var dataTypeString := call.dataType.value;
    var startDate := parse(call.startDate.value).value;
    var endDate := parse(call.endDate.value).value;
    var dataType := AggregateTypeToHKQuantityType(dataTypeString);
    if dataType.None? {
      return Reject("Invalid data type");
    }
    var interval := CalculateInterval(call.bucket.value);
    if interval.None? {
      return Reject("Invalid bucket");
    }
    var res := collect(dataType.value, startDate, endDate, interval.value);
    if res.error.Some? {
      return Reject("Error fetching aggregated data: " + res.error.value);
    }
    var aggregatedSamples := EnumerateStatistics(res.statistics.GetOr([]), dataTypeString, dataType.value);
    return Resolve(map["aggregatedData" := JArr(aggregatedSamples)]);
  }

  /**
   * The private `queryAggregated` of the workout query: nothing without a
   * quantity type; `0.0` when the query gives no result or a result without
   * a sum; the sum otherwise.
   */
  function SubAggregate(quantityType: Option<HKObjectType>, result: Option<Option<real>>): (r: Option<real>)
    ensures r.None? <==> quantityType.None?
    ensures quantityType.Some? && (result.None? || result.value.None?) ==> r == Some(0.0)
    ensures quantityType.Some? && result.Some? && result.value.Some? ==> r == result.value
  {
    if quantityType.None? then None
    else if result.None? || result.value.None? then Some(0.0)
    else result.value
  }

  // ---------------------------------------------------------------------
  // queryWorkouts and its sub-queries
  // ---------------------------------------------------------------------

  /** The fields of an `HKWorkout` the dictionary reads; energy and distance are already converted. */
  datatype HKWorkout = HKWorkout(
    uuid: string,
    startDate: Instant,
    endDate: Instant,
    activityType: nat,
    sourceName: string,
    sourceBundleId: string,
    duration: real,
    totalEnergyBurned: Option<real>,
    totalDistance: Option<real>)

  /** A heart-rate quantity sample, its quantity already in counts per minute. */
  datatype HeartRateQuantitySample = HeartRateQuantitySample(startDate: Instant, bpm: real)

  /** A `CLLocation` of a workout route. */
  datatype Location = Location(timestamp: Instant, latitude: real, longitude: real, altitude: real)

  /** What a sample query hands its handler: the samples, if they have the expected type, and an error. */
  datatype SampleQueryResult<T> = SampleQueryResult(samples: Option<seq<T>>, error: Option<string>)

  /** One call of a route query's handler. */
  datatype LocationBatch = LocationBatch(locations: Option<seq<Location>>, done: bool, error: Option<string>)

  /** The identity of an `HKWorkoutRoute`. */
  type RouteId = nat

  /** The HealthKit queries the workout query runs, as functions of their arguments. */
  datatype HealthStore = HealthStore(
    workouts: (Instant, Instant) -> SampleQueryResult<HKWorkout>,
    heartRateSamples: HKWorkout -> SampleQueryResult<HeartRateQuantitySample>,
    routes: HKWorkout -> SampleQueryResult<RouteId>,
    routeBatches: RouteId -> seq<LocationBatch>,
    stepStatistics: HKWorkout -> Option<Option<real>>)

  /** What a heart-rate or route sub-query hands its completion: dictionaries and an error. */
  datatype SubQuery = SubQuery(samples: seq<Json>, error: Option<string>)

  /** One heart-rate dictionary. */
  function HeartRateDict(s: HeartRateQuantitySample): Json
  {
    JObj(map["timestamp" := JInstant(s.startDate), "bpm" := JNum(s.bpm)])
  }

  /** The heart-rate dictionaries of a sequence of samples. */
  function HeartRateDicts(samples: seq<HeartRateQuantitySample>): seq<Json>
  {
    if |samples| == 0 then [] else HeartRateDicts(samples[..|samples| - 1]) + [HeartRateDict(samples[|samples| - 1])]
  }

  /** One dictionary per sample, in order. */
  lemma {:induction false} HeartRateDictsAt(samples: seq<HeartRateQuantitySample>)
    ensures |HeartRateDicts(samples)| == |samples|
    ensures forall k :: 0 <= k < |samples| ==> HeartRateDicts(samples)[k] == HeartRateDict(samples[k])
  {
    if |samples| > 0 {
      HeartRateDictsAt(samples[..|samples| - 1]);
    }
  }

  /** The handler of `queryHeartRate`: nothing and the error unless samples arrived without one. */
  function HeartRateQueryResult(w: HKWorkout, store: HealthStore): SubQuery
  {
    var q := store.heartRateSamples(w);
    if q.samples.None? || q.error.Some? then SubQuery([], q.error)
    else SubQuery(HeartRateDicts(q.samples.value), None)
  }

  /** `queryHeartRate`. */
  method QueryHeartRate(w: HKWorkout, store: HealthStore) returns (r: SubQuery)
    ensures r == HeartRateQueryResult(w, store)
  {
    var q := store.heartRateSamples(w);
    if q.samples.None? || q.error.Some? {
      return SubQuery([], q.error);
    }
    var samples := q.samples.value;
    var heartRateSamples: seq<Json> := [];
    var i := 0;
    while i < |samples|
      invariant 0 <= i <= |samples|
      invariant heartRateSamples == HeartRateDicts(samples[..i])
    {
      assert samples[..i + 1][..i] == samples[..i];
      heartRateSamples := heartRateSamples + [HeartRateDict(samples[i])];
      i := i + 1;
    }
    assert samples[..i] == samples;
    return SubQuery(heartRateSamples, None);
  }

  /** One location dictionary; the altitude is always present. */
  function LocationDict(l: Location): Json
  {
    JObj(map["timestamp" := JInstant(l.timestamp), "lat" := JNum(l.latitude),
             "lng" := JNum(l.longitude), "alt" := JNum(l.altitude)])
  }

  /** The location dictionaries of a sequence of locations. */
  function LocationDicts(locations: seq<Location>): seq<Json>
  {
    if |locations| == 0 then [] else LocationDicts(locations[..|locations| - 1]) + [LocationDict(locations[|locations| - 1])]
  }

  lemma {:induction false} LocationDictsAppend(a: seq<Location>, b: seq<Location>)
    ensures LocationDicts(a + b) == LocationDicts(a) + LocationDicts(b)
  {
    if |b| == 0 {
      assert a + b == a;
    } else {
      assert (a + b)[..|a + b| - 1] == a + b[..|b| - 1];
      LocationDictsAppend(a, b[..|b| - 1]);
    }
  }

  /**
   * The handler of `queryLocations`, call after call: locations accumulate
   * until a call says `done`, which completes with all of them; a call
   * without locations or with an error completes with nothing. If no call
   * does either, the completion is never called.
   */
  function DeliveredLocations(batches: seq<LocationBatch>, accumulated: seq<Json>): Option<seq<Json>>
  {
    if |batches| == 0 then None
    else
      var b := batches[0];
      if b.locations.None? || b.error.Some? then Some([])
      else if b.done then Some(accumulated + LocationDicts(b.locations.value))
      else DeliveredLocations(batches[1..], accumulated + LocationDicts(b.locations.value))
  }

  /** The locations of all batches, in order. */
  function BatchLocations(batches: seq<LocationBatch>): seq<Location>
  {
    if |batches| == 0 then [] else batches[0].locations.GetOr([]) + BatchLocations(batches[1..])
  }

  /** A delivery of successful calls whose last call alone says `done`. */
  predicate CompleteDelivery(batches: seq<LocationBatch>)
  {
    && |batches| > 0
    && (forall k :: 0 <= k < |batches| ==> batches[k].locations.Some? && batches[k].error.None?)
    && (forall k :: 0 <= k < |batches| ==> (batches[k].done <==> k == |batches| - 1))
  }

  /**
   * A complete delivery yields one dictionary per location of all its
   * calls, in order.
   */
  lemma {:induction false} CompleteDeliveryLocations(batches: seq<LocationBatch>, accumulated: seq<Json>)
    requires CompleteDelivery(batches)
    ensures DeliveredLocations(batches, accumulated) == Some(accumulated + LocationDicts(BatchLocations(batches)))
  {
    var b := batches[0];
    if |batches| == 1 {
      assert BatchLocations(batches) == b.locations.value + BatchLocations(batches[1..]);
      assert b.locations.value + [] == b.locations.value;
    } else {
      assert !b.done;
      var rest := batches[1..];
      assert CompleteDelivery(rest) by {
        forall k | 0 <= k < |rest|
          ensures rest[k].locations.Some? && rest[k].error.None? && (rest[k].done <==> k == |rest| - 1)
        {
          assert rest[k] == batches[k + 1];
        }
      }
      CompleteDeliveryLocations(rest, accumulated + LocationDicts(b.locations.value));
      assert BatchLocations(batches) == b.locations.value + BatchLocations(rest);
      LocationDictsAppend(b.locations.value, BatchLocations(rest));
      assert accumulated + LocationDicts(b.locations.value) + LocationDicts(BatchLocations(rest))
          == accumulated + LocationDicts(BatchLocations(batches));
    }
  }

  /** A failing call before any `done` call leaves the route without locations. */
  lemma {:induction false} FailedDeliveryLocations(batches: seq<LocationBatch>, accumulated: seq<Json>, k: nat)
    requires k < |batches| && (batches[k].locations.None? || batches[k].error.Some?)
    requires forall j :: 0 <= j < k ==> batches[j].locations.Some? && batches[j].error.None? && !batches[j].done
    ensures DeliveredLocations(batches, accumulated) == Some([])
  {
    if k > 0 {
      FailedDeliveryLocations(batches[1..], accumulated + LocationDicts(batches[0].locations.value), k - 1);
    }
  }

  /** `queryLocations`: the handler's calls over the route's batches, in order. */
  method QueryLocations(batches: seq<LocationBatch>) returns (locations: Option<seq<Json>>)
    ensures locations == DeliveredLocations(batches, [])
  {
    var routeLocations: seq<Json> := [];
    var i := 0;
    while i < |batches|
      invariant 0 <= i <= |batches|
      invariant DeliveredLocations(batches, []) == DeliveredLocations(batches[i..], routeLocations)
    {
      var b := batches[i];
      assert batches[i..][0] == b && batches[i..][1..] == batches[i + 1..];
      if b.locations.None? || b.error.Some? {
        return Some([]);
      }
      var ls := b.locations.value;
      var before := routeLocations;
      var j := 0;
      while j < |ls|
        invariant 0 <= j <= |ls|
        invariant routeLocations == before + LocationDicts(ls[..j])
      {
        assert ls[..j + 1][..j] == ls[..j];
        routeLocations := routeLocations + [LocationDict(ls[j])];
        j := j + 1;
      }
      assert ls[..j] == ls;
      if b.done {
        return Some(routeLocations);
      }
      i := i + 1;
    }
    return None;
  }

  /**
   * The locations of a workout's routes, concatenated route by route; none
   * when some route's completion is never called. The handlers run in route
   * order here; in HealthKit they append in the order the queries complete.
   */
  function RoutesLocations(routes: seq<RouteId>, store: HealthStore): Option<seq<Json>>
  {
    if |routes| == 0 then Some([])
    else
      var init := RoutesLocations(routes[..|routes| - 1], store);
      var last := DeliveredLocations(store.routeBatches(routes[|routes| - 1]), []);
      if init.None? || last.None? then None else Some(init.value + last.value)
  }

  /** The locations of routes run one after another are those of the first routes followed by the rest's. */
  lemma {:induction false} RoutesLocationsAppend(a: seq<RouteId>, b: seq<RouteId>, store: HealthStore)
    ensures RoutesLocations(a + b, store) ==
              if RoutesLocations(a, store).Some? && RoutesLocations(b, store).Some?
              then Some(RoutesLocations(a, store).value + RoutesLocations(b, store).value)
              else None
  {
    if |b| == 0 {
      assert a + b == a;
      if RoutesLocations(a, store).Some? {
        assert RoutesLocations(a, store).value + [] == RoutesLocations(a, store).value;
      }
    } else {
      var n := |b| - 1;
      assert (a + b)[..|a + b| - 1] == a + b[..n];
      assert (a + b)[|a + b| - 1] == b[n];
      RoutesLocationsAppend(a, b[..n], store);
      var x, y := RoutesLocations(a, store), RoutesLocations(b[..n], store);
      var last := DeliveredLocations(store.routeBatches(b[n]), []);
      if x.Some? && y.Some? && last.Some? {
        assert (x.value + y.value) + last.value == x.value + (y.value + last.value);
      }
    }
  }

  /** One route's locations are what its location handler delivers. */
  lemma RoutesLocationsSingle(r: RouteId, store: HealthStore)
    ensures RoutesLocations([r], store) == DeliveredLocations(store.routeBatches(r), [])
  {
    assert [r][..0] == [];
    var last := DeliveredLocations(store.routeBatches(r), []);
    if last.Some? {
      assert [] + last.value == last.value;
    }
  }

  /** The routes' locations exist exactly when every route's location handler completes. */
  lemma {:induction false} RoutesLocationsComplete(routes: seq<RouteId>, store: HealthStore)
    ensures RoutesLocations(routes, store).Some? <==>
              forall k :: 0 <= k < |routes| ==> DeliveredLocations(store.routeBatches(routes[k]), []).Some?
  {
    if |routes| > 0 {
      var init := routes[..|routes| - 1];
      RoutesLocationsComplete(init, store);
      assert forall k :: 0 <= k < |init| ==> init[k] == routes[k];
    }
  }

  /** The completion of `queryRoute`; none when it is never called. */
  function RouteQueryResult(w: HKWorkout, store: HealthStore): Option<SubQuery>
  {
    var q := store.routes(w);
    if q.samples.None? || q.error.Some? then Some(SubQuery([], q.error))
    else
      var locations := RoutesLocations(q.samples.value, store);
      if locations.None? then None else Some(SubQuery(locations.value, None))
  }

  /** `queryRoute`: the locations of every route of the workout, route after route (completion order in HealthKit). */
  method QueryRoute(w: HKWorkout, store: HealthStore) returns (r: Option<SubQuery>)
    ensures r == RouteQueryResult(w, store)
  {
    var q := store.routes(w);
    if q.samples.None? || q.error.Some? {
      return Some(SubQuery([], q.error));
    }
    var routes := q.samples.value;
    var routeLocations: seq<Json> := [];
    var completed := true;
    var i := 0;
    while i < |routes|
      invariant 0 <= i <= |routes|
      invariant RoutesLocations(routes[..i], store) == if completed then Some(routeLocations) else None
    {
      assert routes[..i + 1][..i] == routes[..i];
      var locations := QueryLocations(store.routeBatches(routes[i]));
      if locations.Some? {
        routeLocations := routeLocations + locations.value;
      } else {
        completed := false;
      }
      i := i + 1;
    }
    assert routes[..i] == routes;
    if !completed {
      return None;
    }
    return Some(SubQuery(routeLocations, None));
  }

  /** The three booleans of a `queryWorkouts` call. */
  datatype WorkoutFlags = WorkoutFlags(includeHeartRate: bool, includeRoute: bool, includeSteps: bool)

  /** What the sub-queries of one workout hand back. */
  datatype SubResults = SubResults(heartRate: SubQuery, route: SubQuery, steps: Option<real>)

  /**
   * The sub-queries a workout runs under the flags. A query that is not
   * asked for leaves its samples empty; none when the route query never
   * completes.
   */
  function WorkoutSubResults(w: HKWorkout, flags: WorkoutFlags, store: HealthStore): Option<SubResults>
  {
    var heartRate := if flags.includeHeartRate then HeartRateQueryResult(w, store) else SubQuery([], None);
    var route := if flags.includeRoute then RouteQueryResult(w, store) else Some(SubQuery([], None));
    var steps := if flags.includeSteps then SubAggregate(Some(StepCount), store.stepStatistics(w)) else None;
    if route.None? then None else Some(SubResults(heartRate, route.value, steps))
  }

  /** `workoutDict` once every sub-query of the workout has completed. */
  function WorkoutDict(w: HKWorkout, sub: SubResults): JsObject
  {
    var base := map[
      "startDate" := JInstant(w.startDate),
      "endDate" := JInstant(w.endDate),
      "workoutType" := JStr(WorkoutTypeName(w.activityType)),
      "sourceName" := JStr(w.sourceName),
      "sourceBundleId" := JStr(w.sourceBundleId),
      "id" := JStr(w.uuid),
      "duration" := JNum(w.duration),
      "calories" := JNum(w.totalEnergyBurned.GetOr(0.0)),
      "distance" := JNum(w.totalDistance.GetOr(0.0))];
    var withSteps := if sub.steps.Some? then base["steps" := JNum(sub.steps.value)] else base;
    withSteps["heartRate" := JArr(sub.heartRate.samples)]["route" := JArr(sub.route.samples)]
  }

  /** `errors` after one workout's sub-queries: each failure with an error overwrites its key. */
  function ErrorsAfter(errors: map<string, string>, sub: SubResults): map<string, string>
  {
    var withHeartRate := if sub.heartRate.error.Some? then errors["heart-rate" := sub.heartRate.error.value] else errors;
    if sub.route.error.Some? then withHeartRate["route" := sub.route.error.value] else withHeartRate
  }

  /** The workout list and the error map after a run of workouts; none when one never completes. */
  datatype Collected = Collected(workoutList: seq<Json>, errors: map<string, string>)

  /**
   * The workout loop over any per-workout completion and dictionary: the
   * dictionaries in order and the accumulated errors, or none once a
   * workout never completes.
   */
  function CollectRun(ws: seq<HKWorkout>, subOf: HKWorkout -> Option<SubResults>, dictOf: (HKWorkout, SubResults) -> Json): Option<Collected>
  {
    if |ws| == 0 then Some(Collected([], map[]))
    else
      var init := CollectRun(ws[..|ws| - 1], subOf, dictOf);
      var sub := subOf(ws[|ws| - 1]);
      if init.None? || sub.None? then None
      else Some(Collected(init.value.workoutList + [dictOf(ws[|ws| - 1], sub.value)],
                          ErrorsAfter(init.value.errors, sub.value)))
  }

  /** The workout list and the errors of a run of workouts under the flags. */
  function CollectedWorkouts(ws: seq<HKWorkout>, flags: WorkoutFlags, store: HealthStore): Option<Collected>
  {
    CollectRun(ws, w => WorkoutSubResults(w, flags, store), (w, sub) => JObj(WorkoutDict(w, sub)))
  }

  /** A run completes exactly when every workout does, and then has one dictionary per workout, in order. */
  lemma {:induction false} CollectRunShape(ws: seq<HKWorkout>, subOf: HKWorkout -> Option<SubResults>, dictOf: (HKWorkout, SubResults) -> Json)
    ensures CollectRun(ws, subOf, dictOf).Some? <==> forall i :: 0 <= i < |ws| ==> subOf(ws[i]).Some?
    ensures CollectRun(ws, subOf, dictOf).Some? ==>
              var list := CollectRun(ws, subOf, dictOf).value.workoutList;
              && |list| == |ws|
              && forall i :: 0 <= i < |ws| ==> subOf(ws[i]).Some? && list[i] == dictOf(ws[i], subOf(ws[i]).value)
  {
    if |ws| > 0 {
      var init := ws[..|ws| - 1];
      CollectRunShape(init, subOf, dictOf);
      assert forall i :: 0 <= i < |init| ==> init[i] == ws[i];
    }
  }

  /** The keys every workout dictionary has. */
  const WorkoutBaseKeys: set<string> :=
    {"startDate", "endDate", "workoutType", "sourceName", "sourceBundleId", "id", "duration", "calories", "distance"}

  /**
   * The fields of a completed workout: its type from the table or "other",
   * and calories and distance defaulting to `0`.
   */
  lemma WorkoutRecordFields(w: HKWorkout, flags: WorkoutFlags, store: HealthStore)
    requires WorkoutSubResults(w, flags, store).Some?
    ensures var d := WorkoutDict(w, WorkoutSubResults(w, flags, store).value);
            && d.Keys >= WorkoutBaseKeys
            && d["workoutType"] == JStr(WorkoutTypeName(w.activityType))
            && d["calories"] == JNum(if w.totalEnergyBurned.Some? then w.totalEnergyBurned.value else 0.0)
            && d["distance"] == JNum(if w.totalDistance.Some? then w.totalDistance.value else 0.0)
  {
  }

  /** `steps`, when asked for, is the workout's step sum, or `0.0` without a result or a sum. */
  lemma WorkoutRecordSteps(w: HKWorkout, flags: WorkoutFlags, store: HealthStore)
    requires WorkoutSubResults(w, flags, store).Some?
    ensures var d := WorkoutDict(w, WorkoutSubResults(w, flags, store).value);
            flags.includeSteps ==>
              var st := store.stepStatistics(w);
              "steps" in d && d["steps"] == JNum(if st.Some? && st.value.Some? then st.value.value else 0.0)
  {
    var sub := WorkoutSubResults(w, flags, store).value;
    var st := store.stepStatistics(w);
    assert sub.steps == if flags.includeSteps then Some(if st.Some? && st.value.Some? then st.value.value else 0.0) else None;
  }

  /** A completed workout has the base keys, `heartRate` and `route`, and `steps` exactly when asked for. */
  lemma WorkoutRecordKeys(w: HKWorkout, flags: WorkoutFlags, store: HealthStore)
    requires WorkoutSubResults(w, flags, store).Some?
    ensures WorkoutDict(w, WorkoutSubResults(w, flags, store).value).Keys ==
              WorkoutBaseKeys + {"heartRate", "route"} + (if flags.includeSteps then {"steps"} else {})
  {
    var sub := WorkoutSubResults(w, flags, store).value;
    assert sub.steps.Some? <==> flags.includeSteps;
  }

  /**
   * `heartRate` and `route` are empty unless asked for and fetched without
   * failure, and then hold the fetched dictionaries; an error is recorded
   * exactly for a sub-query that was asked for and reported one.
   */
  lemma WorkoutRecordSamples(w: HKWorkout, flags: WorkoutFlags, store: HealthStore)
    requires WorkoutSubResults(w, flags, store).Some?
    ensures var sub := WorkoutSubResults(w, flags, store).value;
            var hq := store.heartRateSamples(w);
            && WorkoutDict(w, sub)["heartRate"] == JArr(sub.heartRate.samples)
            && sub.heartRate.samples == (if flags.includeHeartRate && hq.samples.Some? && hq.error.None?
                                         then HeartRateDicts(hq.samples.value) else [])
            && sub.heartRate.error == (if flags.includeHeartRate then hq.error else None)
    ensures var sub := WorkoutSubResults(w, flags, store).value;
            var rq := store.routes(w);
            && WorkoutDict(w, sub)["route"] == JArr(sub.route.samples)
            && sub.route.samples == (if flags.includeRoute && rq.samples.Some? && rq.error.None?
                                     then RoutesLocations(rq.samples.value, store).value else [])
            && sub.route.error == (if flags.includeRoute then rq.error else None)
  {
  }

  /** The error a sub-query of one workout reports under an error key. */
  function SubError(sub: SubResults, key: string): Option<string>
  {
    if key == "heart-rate" then sub.heartRate.error
    else if key == "route" then sub.route.error
    else None
  }

  /** One workout's errors overwrite their keys and leave every other key as it was. */
  lemma ErrorsAfterAt(errors: map<string, string>, sub: SubResults, key: string)
    ensures key in ErrorsAfter(errors, sub) <==> SubError(sub, key).Some? || key in errors
    ensures key in ErrorsAfter(errors, sub) ==>
              ErrorsAfter(errors, sub)[key] == if SubError(sub, key).Some? then SubError(sub, key).value else errors[key]
    ensures ErrorsAfter(errors, sub).Keys <= errors.Keys + {"heart-rate", "route"}
  {
  }

  /** The error the last workout reporting one under `key` reported, if any. */
  function LastError(ws: seq<HKWorkout>, subOf: HKWorkout -> Option<SubResults>, key: string): Option<string>
  {
    if |ws| == 0 then None
    else
      var sub := subOf(ws[|ws| - 1]);
      if sub.Some? && SubError(sub.value, key).Some? then SubError(sub.value, key)
      else LastError(ws[..|ws| - 1], subOf, key)
  }

  /** The error map of a completed run holds only `heart-rate` and `route`, each with its last error. */
  lemma {:induction false} CollectRunErrors(ws: seq<HKWorkout>, subOf: HKWorkout -> Option<SubResults>,
                                            dictOf: (HKWorkout, SubResults) -> Json, key: string)
    requires CollectRun(ws, subOf, dictOf).Some?
    ensures CollectRun(ws, subOf, dictOf).value.errors.Keys <= {"heart-rate", "route"}
    ensures key in CollectRun(ws, subOf, dictOf).value.errors <==> LastError(ws, subOf, key).Some?
    ensures key in CollectRun(ws, subOf, dictOf).value.errors ==>
              LastError(ws, subOf, key) == Some(CollectRun(ws, subOf, dictOf).value.errors[key])
  {
    if |ws| > 0 {
      var n := |ws| - 1;
      CollectRunErrors(ws[..n], subOf, dictOf, key);
      ErrorsAfterAt(CollectRun(ws[..n], subOf, dictOf).value.errors, subOf(ws[n]).value, key);
    }
  }

  /**
   * There is a last error under `key` exactly when some workout reported
   * one, and it is the error of a workout after which none reported one.
   */
  lemma {:induction false} LastErrorIsLast(ws: seq<HKWorkout>, subOf: HKWorkout -> Option<SubResults>, key: string)
    requires forall i :: 0 <= i < |ws| ==> subOf(ws[i]).Some?
    ensures LastError(ws, subOf, key).Some? <==> exists i :: 0 <= i < |ws| && SubError(subOf(ws[i]).value, key).Some?
    ensures LastError(ws, subOf, key).Some? ==>
              exists i :: 0 <= i < |ws|
                && SubError(subOf(ws[i]).value, key) == LastError(ws, subOf, key)
                && forall j :: i < j < |ws| ==> SubError(subOf(ws[j]).value, key).None?
  {
    if |ws| > 0 {
      var n := |ws| - 1;
      var init := ws[..n];
      assert forall i :: 0 <= i < n ==> init[i] == ws[i];
      LastErrorIsLast(init, subOf, key);
      if SubError(subOf(ws[n]).value, key).None? && LastError(ws, subOf, key).Some? {
        var i :| 0 <= i < n
          && SubError(subOf(init[i]).value, key) == LastError(init, subOf, key)
          && forall j :: i < j < n ==> SubError(subOf(init[j]).value, key).None?;
        assert SubError(subOf(ws[i]).value, key) == LastError(ws, subOf, key);
      }
    }
  }

  /**
   * The run of `queryWorkouts` completes exactly when every workout's
   * sub-queries complete; it then lists one dictionary per workout in the
   * order of the workouts, and its error map holds, under `heart-rate` and
   * `route`, the error of the last workout whose sub-query reported one.
   */
  lemma CollectedWorkoutsProperties(ws: seq<HKWorkout>, flags: WorkoutFlags, store: HealthStore, key: string)
    ensures CollectedWorkouts(ws, flags, store).Some? <==>
              forall i :: 0 <= i < |ws| ==> WorkoutSubResults(ws[i], flags, store).Some?
    ensures CollectedWorkouts(ws, flags, store).Some? ==>
              var c := CollectedWorkouts(ws, flags, store).value;
              && |c.workoutList| == |ws|
              && (forall i :: 0 <= i < |ws| ==>
                    WorkoutSubResults(ws[i], flags, store).Some? &&
                    c.workoutList[i] == JObj(WorkoutDict(ws[i], WorkoutSubResults(ws[i], flags, store).value)))
              && c.errors.Keys <= {"heart-rate", "route"}
              && (key in c.errors <==>
                    exists i :: 0 <= i < |ws| && SubError(WorkoutSubResults(ws[i], flags, store).value, key).Some?)
              && (key in c.errors ==>
                    exists i :: 0 <= i < |ws|
                      && SubError(WorkoutSubResults(ws[i], flags, store).value, key) == Some(c.errors[key])
                      && forall j :: i < j < |ws| ==> SubError(WorkoutSubResults(ws[j], flags, store).value, key).None?)
  {
    var subOf := w => WorkoutSubResults(w, flags, store);
    var dictOf := (w, sub) => JObj(WorkoutDict(w, sub));
    CollectRunShape(ws, subOf, dictOf);
    if CollectRun(ws, subOf, dictOf).Some? {
      CollectRunErrors(ws, subOf, dictOf, key);
      LastErrorIsLast(ws, subOf, key);
    }
  }

  /** `workoutDict` and the updates of `errors` for one workout. */
  method ProcessWorkout(w: HKWorkout, flags: WorkoutFlags, store: HealthStore) returns (sub: Option<SubResults>)
    ensures sub == WorkoutSubResults(w, flags, store)
  {
    var heartRate := SubQuery([], None);
    if flags.includeHeartRate {
      heartRate := QueryHeartRate(w, store);
    }
    var route := Some(SubQuery([], None));
    if flags.includeRoute {
      route := QueryRoute(w, store);
    }
    var steps := None;
    if flags.includeSteps {
      steps := SubAggregate(Some(StepCount), store.stepStatistics(w));
    }
    if route.None? {
      return None;
    }
    return Some(SubResults(heartRate, route.value, steps));
  }

  /** The options of a `queryWorkouts` call, each possibly missing. */
  datatype WorkoutsCall = WorkoutsCall(
    startDate: Option<string>,
    endDate: Option<string>,
    includeHeartRate: Option<bool>,
    includeRoute: Option<bool>,
    includeSteps: Option<bool>)

  /** The five options are present and both dates parse. */
  predicate WorkoutsParametersValid(call: WorkoutsCall, parse: string -> Option<Instant>)
  {
    && call.startDate.Some? && call.endDate.Some?
    && call.includeHeartRate.Some? && call.includeRoute.Some? && call.includeSteps.Some?
    && parse(call.startDate.value).Some? && parse(call.endDate.value).Some?
  }

  function FlagsOf(call: WorkoutsCall): WorkoutFlags
    requires call.includeHeartRate.Some? && call.includeRoute.Some? && call.includeSteps.Some?
  {
    WorkoutFlags(call.includeHeartRate.value, call.includeRoute.value, call.includeSteps.value)
  }

  /** The string-valued error map as a dictionary. */
  function ErrorsObject(errors: map<string, string>): Json
  {
    JObj(map k | k in errors :: JStr(errors[k]))
  }

  /** The workouts of a run with their dictionaries and errors, or never settled. */
  function WorkoutsOutcome(ws: seq<HKWorkout>, flags: WorkoutFlags, store: HealthStore): Outcome
  {
    var c := CollectedWorkouts(ws, flags, store);
    if c.None? then Unsettled
    else Resolve(map["workouts" := JArr(c.value.workoutList), "errors" := ErrorsObject(c.value.errors)])
  }

  /**
   * `queryWorkouts`: rejects missing or unparsable options; rejects with the
   * workout query's error; resolves with no workouts (and no error map)
   * when the samples are not workouts; otherwise one dictionary per workout
   * and the error map.
   */
  method QueryWorkouts(call: WorkoutsCall, parse: string -> Option<Instant>, store: HealthStore) returns (outcome: Outcome)
    ensures !WorkoutsParametersValid(call, parse) ==> outcome == Reject("Invalid parameters")
    ensures WorkoutsParametersValid(call, parse) ==>
              var q := store.workouts(parse(call.startDate.value).value, parse(call.endDate.value).value);
              outcome == if q.error.Some? then Reject("Error querying workouts: " + q.error.value)
                         else if q.samples.None? then Resolve(map["workouts" := JArr([])])
                         else WorkoutsOutcome(q.samples.value, FlagsOf(call), store)
  {
    if !WorkoutsParametersValid(call, parse) {
      return Reject("Invalid parameters");
    }
    var flags := FlagsOf(call);
    var q := store.workouts(parse(call.startDate.value).value, parse(call.endDate.value).value);
    if q.error.Some? {
      return Reject("Error querying workouts: " + q.error.value);
    }
    if q.samples.None? {
      return Resolve(map["workouts" := JArr([])]);
    }
    var workouts := q.samples.value;
    var workoutList: seq<Json> := [];
    var errors: map<string, string> := map[];
    var settled := true;
    var i := 0;
    while i < |workouts|
      invariant 0 <= i <= |workouts|
      invariant CollectedWorkouts(workouts[..i], flags, store) ==
                if settled then Some(Collected(workoutList, errors)) else None
    {
      assert workouts[..i + 1][..i] == workouts[..i];
      var sub := ProcessWorkout(workouts[i], flags, store);
      if sub.Some? {
        errors := ErrorsAfter(errors, sub.value);
        workoutList := workoutList + [JObj(WorkoutDict(workouts[i], sub.value))];
      } else {
        settled := false;
      }
      i := i + 1;
    }
    assert workouts[..i] == workouts;
    if !settled {
      return Unsettled;
    }
    return Resolve(map["workouts" := JArr(workoutList), "errors" := ErrorsObject(errors)]);
  }
}
