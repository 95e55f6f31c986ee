/**
 * The Android query shaping: the metric resolver, the `day` bucket, the
 * aggregated query, and the per-session assembly of workout objects with
 * their duration, exercise type, metric totals, heart-rate samples and route.
 * Health Connect is replaced by its answers, given as inputs.
 */
module AndroidQueries {
  import opened Wrappers
  import opened JsonValues
  import opened AndroidPermissions

  /** A point in time, in epoch seconds. */
  type Instant = int

  /** The three aggregate metrics the plugin reads. */
  datatype AggregateMetric = StepsCountTotal | ActiveCaloriesTotal | DistanceTotal

  datatype Energy = Energy(kilocalories: real)
  datatype Length = Length(meters: real)

  /** An `AggregationResult`, restricted to the three metrics; each may be missing. */
  datatype AggregationResult = AggregationResult(
    stepsCountTotal: Option<int>,
    activeCaloriesTotal: Option<Energy>,
    distanceTotal: Option<Length>)

  /** `a[metric] != null`. */
  predicate HasMetric(a: AggregationResult, metric: AggregateMetric)
  {
    match metric
    case StepsCountTotal => a.stepsCountTotal.Some?
    case ActiveCaloriesTotal => a.activeCaloriesTotal.Some?
    case DistanceTotal => a.distanceTotal.Some?
  }

  /**
   * `MetricAndMapper`: the name a value is reported under, the permission
   * that gates it and the metric; the mapper is determined by the metric.
   */
  datatype MetricAndMapper = MetricAndMapper(name: string, permission: CapHealthPermission, metric: AggregateMetric)

  const SupportedDataTypes: set<string> := {"steps", "calories", "distance"}

  /** The three metric descriptors. */
  const StepsMetric := MetricAndMapper("steps", ReadSteps, StepsCountTotal)
  const CaloriesMetric := MetricAndMapper("calories", ReadCalories, ActiveCaloriesTotal)
  const DistanceMetric := MetricAndMapper("distance", ReadDistance, DistanceTotal)

  /** The Health Connect permission that reading the records behind a metric needs. */
  function RecordReadPermission(metric: AggregateMetric): string
  {
    match metric
    case StepsCountTotal => HealthConnectPermission("READ_STEPS")
    case ActiveCaloriesTotal => HealthConnectPermission("READ_ACTIVE_CALORIES_BURNED")
    case DistanceTotal => HealthConnectPermission("READ_DISTANCE")
  }

  /**
   * `getMetricAndMapper`: defined for `steps`, `calories` and `distance`
   * only, reporting under the requested name and gated by the permission
   * whose Health Connect string is the one the metric's records need.
   */
  function GetMetricAndMapper(dataType: string): (r: Result<MetricAndMapper, string>)
    ensures r.Ok? <==> dataType in SupportedDataTypes
    ensures r.Err? ==> r.error == "Unsupported dataType: " + dataType
    ensures r.Ok? ==> r.value.name == dataType
    ensures r.Ok? ==> r.value.permission in PermissionMapping &&
                      PermissionMapping[r.value.permission] == RecordReadPermission(r.value.metric)
    ensures dataType == "steps" ==> r == Ok(StepsMetric) && r.value.permission == ReadSteps
    ensures dataType == "calories" ==> r == Ok(CaloriesMetric) && r.value.permission == ReadCalories
    ensures dataType == "distance" ==> r == Ok(DistanceMetric) && r.value.permission == ReadDistance
  {
    if dataType == "steps" then PermissionMappingAt(ReadSteps); Ok(StepsMetric)
    else if dataType == "calories" then PermissionMappingAt(ReadCalories); Ok(CaloriesMetric)
    else if dataType == "distance" then PermissionMappingAt(ReadDistance); Ok(DistanceMetric)
    else Err("Unsupported dataType: " + dataType)
  }

  /**
   * `MetricAndMapper.getValue`: the metric converted to a double (count,
   * kilocalories, meters); a missing metric stays missing.
   */
  function GetValue(m: MetricAndMapper, a: AggregationResult): (v: Option<real>)
    ensures v.Some? <==> HasMetric(a, m.metric)
  {
    match m.metric
    case StepsCountTotal =>
      if a.stepsCountTotal.Some? then Some(a.stepsCountTotal.value as real) else None
    case ActiveCaloriesTotal =>
      if a.activeCaloriesTotal.Some? then Some(a.activeCaloriesTotal.value.kilocalories) else None
    case DistanceTotal =>
      if a.distanceTotal.Some? then Some(a.distanceTotal.value.meters) else None
  }

  /** A measured zero is reported as 0.0, distinct from a missing total. */
  lemma ZeroIsNotMissing()
    ensures GetValue(StepsMetric, AggregationResult(Some(0), None, None)) == Some(0.0)
    ensures GetValue(StepsMetric, AggregationResult(None, None, None)) == None
  {
  }

  /** A time-range slicer; the plugin only builds `Period.ofDays(1)`. */
  datatype Period = Days(days: nat)

  /** The bucket `when`: only `day` is accepted. */
  function BucketPeriod(bucket: string): (r: Result<Period, string>)
    ensures r.Ok? <==> bucket == "day"
    ensures r.Ok? ==> r.value == Days(1)
    ensures r.Err? ==> r.error == "Unsupported bucket: " + bucket
  {
    if bucket == "day" then Ok(Days(1)) else Err("Unsupported bucket: " + bucket)
  }

  /** One `AggregationResultGroupedByPeriod`: a slice of the range and its totals. */
  datatype GroupedResult = GroupedResult(startTime: Instant, endTime: Instant, result: AggregationResult)

  /** `AggregatedSample`: a slice and its mapped value. */
  datatype AggregatedSample = AggregatedSample(startDate: Instant, endDate: Instant, value: Option<real>)

  /**
   * `AggregatedSample.toJs`: the slice's bounds always, and `value` only
   * when there is one (putting null leaves the key out).
   */
  function SampleToJs(s: AggregatedSample): (o: JsObject)
    ensures o.Keys <= {"startDate", "endDate", "value"}
    ensures Field(o, "startDate") == Some(JInstant(s.startDate)) && Field(o, "endDate") == Some(JInstant(s.endDate))
    ensures Field(o, "value") == if s.value.Some? then Some(JNum(s.value.value)) else None
  {
    PutNullable(map["startDate" := JInstant(s.startDate), "endDate" := JInstant(s.endDate)], "value",
                if s.value.Some? then Some(JNum(s.value.value)) else None)
  }

  /**
   * `queryAggregatedMetric`: the failure of the granted-permission read
   * that `hasPermission` makes; empty without the metric's permission (and
   * the provider is then not asked); otherwise one sample per grouped
   * result, in the provider's order, with its slice copied and its value
   * mapped.
   */
  function QueryAggregatedMetric(m: MetricAndMapper, granted: Result<set<string>, string>,
                                 response: Result<seq<GroupedResult>, string>)
    : (r: Result<seq<AggregatedSample>, string>)
    ensures granted.Err? ==> r == Err(granted.error)
    ensures granted.Ok? && !HasPermission(granted.value, m.permission) ==> r == Ok([])
    ensures granted.Ok? && HasPermission(granted.value, m.permission) && response.Err? ==> r == Err(response.error)
    ensures granted.Ok? && HasPermission(granted.value, m.permission) && response.Ok? ==>
              r.Ok? && |r.value| == |response.value| &&
              forall i :: 0 <= i < |r.value| ==>
                r.value[i].startDate == response.value[i].startTime &&
                r.value[i].endDate == response.value[i].endTime &&
                r.value[i].value == GetValue(m, response.value[i].result)
  {
    if granted.Err? then Err(granted.error)
    else if !HasPermission(granted.value, m.permission) then Ok([])
    else
      match response
      case Err(e) => Err(e)
      case Ok(groups) =>
        Ok(seq(|groups|, i requires 0 <= i < |groups| =>
          AggregatedSample(groups[i].startTime, groups[i].endTime, GetValue(m, groups[i].result))))
  }

  /** The parameters of a `queryAggregated` call; each may be missing. */
  datatype AggregatedCall = AggregatedCall(
    startDate: Option<string>, endDate: Option<string>, dataType: Option<string>, bucket: Option<string>)

  const MissingAggregatedParameters := "Missing required parameters: startDate, endDate, dataType, or bucket"

  /** Health Connect's grouped aggregation, as a function of what the plugin asks. */
  type GroupedAggregation = (AggregateMetric, Instant, Instant, Period) -> Result<seq<GroupedResult>, string>

  /**
   * `queryAggregated`: rejects when a parameter is missing, with the parse
   * error of a date, for a data type other than the three, or for a bucket
   * other than `day`, checked in that order; otherwise the aggregated
   * query's result, with a provider failure reported as a rejection.
   */
  function QueryAggregated(call: AggregatedCall, parse: string -> Result<Instant, string>,
                           granted: Result<set<string>, string>, provider: GroupedAggregation)
    : (r: Result<seq<AggregatedSample>, string>)
    ensures call.startDate.None? || call.endDate.None? || call.dataType.None? || call.bucket.None? ==>
              r == Err(MissingAggregatedParameters)
    ensures r.Ok? ==>
              && call.startDate.Some? && parse(call.startDate.value).Ok?
              && call.endDate.Some? && parse(call.endDate.value).Ok?
              && call.dataType.Some? && call.dataType.value in SupportedDataTypes
              && call.bucket == Some("day")
    ensures call.startDate.Some? && call.endDate.Some? && call.dataType.Some? && call.bucket.Some? &&
            parse(call.startDate.value).Err? ==>
              r == Err(parse(call.startDate.value).error)
    ensures call.startDate.Some? && call.endDate.Some? && call.dataType.Some? && call.bucket.Some? &&
            parse(call.startDate.value).Ok? && parse(call.endDate.value).Err? ==>
              r == Err(parse(call.endDate.value).error)
    ensures call.startDate.Some? && call.endDate.Some? && call.dataType.Some? && call.bucket.Some? &&
            parse(call.startDate.value).Ok? && parse(call.endDate.value).Ok? &&
            call.dataType.value !in SupportedDataTypes ==>
              r == Err("Unsupported dataType: " + call.dataType.value)
    ensures call.startDate.Some? && call.endDate.Some? && call.dataType.Some? && call.bucket.Some? &&
            parse(call.startDate.value).Ok? && parse(call.endDate.value).Ok? &&
            call.dataType.value in SupportedDataTypes && call.bucket.value != "day" ==>
              r == Err("Unsupported bucket: " + call.bucket.value)
    ensures call.startDate.Some? && call.endDate.Some? && call.dataType.Some? && call.bucket == Some("day") &&
            parse(call.startDate.value).Ok? && parse(call.endDate.value).Ok? &&
            call.dataType.value in SupportedDataTypes ==>
              && (granted.Err? ==> r == Err("Error querying aggregated data: " + granted.error))
              && (granted.Ok? && !HasPermission(granted.value, GetMetricAndMapper(call.dataType.value).value.permission) ==>
                    r == Ok([]))
    ensures call.startDate.Some? && call.endDate.Some? && call.dataType.Some? && call.bucket == Some("day") &&
            parse(call.startDate.value).Ok? && parse(call.endDate.value).Ok? &&
            call.dataType.value in SupportedDataTypes ==>
              var m := GetMetricAndMapper(call.dataType.value).value;
              var response := provider(m.metric, parse(call.startDate.value).value, parse(call.endDate.value).value, Days(1));
              && (granted.Ok? && HasPermission(granted.value, m.permission) && response.Err? ==>
                    r == Err("Error querying aggregated data: " + response.error))
              && (granted.Ok? && HasPermission(granted.value, m.permission) && response.Ok? ==>
                    r.Ok? && |r.value| == |response.value| &&
                    forall i :: 0 <= i < |r.value| ==>
                      r.value[i] == AggregatedSample(response.value[i].startTime, response.value[i].endTime,
                                                     GetValue(m, response.value[i].result)))
  {
    if call.startDate.None? || call.endDate.None? || call.dataType.None? || call.bucket.None? then
      Err(MissingAggregatedParameters)
    else
      match parse(call.startDate.value)
      case Err(e) => Err(e)
      case Ok(startTime) =>
        match parse(call.endDate.value)
        case Err(e) => Err(e)
        case Ok(endTime) =>
          match GetMetricAndMapper(call.dataType.value)
          case Err(e) => Err(e)
          case Ok(m) =>
            match BucketPeriod(call.bucket.value)
            case Err(e) => Err(e)
            case Ok(period) =>
              match QueryAggregatedMetric(m, granted, provider(m.metric, startTime, endTime, period))
              case Err(e) => Err("Error querying aggregated data: " + e)
              case Ok(samples) => Ok(samples)
  }

  /** The `aggregatedData` array: the `toJs` object of every sample, in order. */
  function AggregatedArray(samples: seq<AggregatedSample>): seq<Json>
  {
    if |samples| == 0 then []
    else AggregatedArray(samples[..|samples| - 1]) + [JObj(SampleToJs(samples[|samples| - 1]))]
  }

  /** One object per sample, at the sample's position. */
  lemma {:induction false} AggregatedArrayAt(samples: seq<AggregatedSample>)
    ensures |AggregatedArray(samples)| == |samples|
    ensures forall i :: 0 <= i < |samples| ==> AggregatedArray(samples)[i] == JObj(SampleToJs(samples[i]))
  {
    if |samples| > 0 {
      var init := samples[..|samples| - 1];
      AggregatedArrayAt(init);
      assert forall i :: 0 <= i < |init| ==> init[i] == samples[i];
    }
  }

  /**
   * The object the aggregated query resolves with: the loop puts every
   * sample's object into `aggregatedList`, which becomes `aggregatedData`.
   */
  method ResolveAggregated(samples: seq<AggregatedSample>) returns (o: JsObject)
    ensures o.Keys == {"aggregatedData"}
    ensures o["aggregatedData"] == JArr(AggregatedArray(samples))
    ensures |o["aggregatedData"].items| == |samples|
    ensures forall i :: 0 <= i < |samples| ==> o["aggregatedData"].items[i] == JObj(SampleToJs(samples[i]))
  {
    var aggregatedList: seq<Json> := [];
    var i := 0;
    while i < |samples|
      invariant 0 <= i <= |samples|
      invariant aggregatedList == AggregatedArray(samples[..i])
    {
      assert samples[..i + 1][..i] == samples[..i];
      aggregatedList := aggregatedList + [JObj(SampleToJs(samples[i]))];
      i := i + 1;
    }
    assert samples[..i] == samples;
    AggregatedArrayAt(samples);
    o := map["aggregatedData" := JArr(aggregatedList)];
  }

  // ---------------------------------------------------------------------
  // Workouts
  // ---------------------------------------------------------------------

  /** An `ExerciseSegment`: an active interval of a session. */
  datatype Segment = Segment(startTime: Instant, endTime: Instant)

  /** An `ExerciseRoute.Location`. */
  datatype RouteLocation = RouteLocation(time: Instant, latitude: real, longitude: real, altitude: Option<Length>)

  /** `ExerciseRouteResult`: a route, no route, or a route that needs consent. */
  datatype ExerciseRouteResult = Data(route: seq<RouteLocation>) | NoData | ConsentRequired

  /** An `ExerciseSessionRecord`. */
  datatype ExerciseSession = ExerciseSession(
    id: string,
    startTime: Instant,
    endTime: Instant,
    exerciseType: int,
    title: Option<string>,
    segments: seq<Segment>,
    exerciseRouteResult: ExerciseRouteResult)

  datatype HeartRateSample = HeartRateSample(time: Instant, beatsPerMinute: int)
  datatype HeartRateRecord = HeartRateRecord(samples: seq<HeartRateSample>)

  /**
   * What Health Connect answers during a workout query: the granted
   * permission strings (a failing read is `Err`), the per-session aggregate
   * (an exception is `Err`), and the heart-rate records of a time range.
   */
  datatype HealthConnect = HealthConnect(
    granted: Result<set<string>, string>,
    aggregate: (AggregateMetric, Instant, Instant) -> Result<AggregationResult, string>,
    heartRateRecords: (Instant, Instant) -> Result<seq<HeartRateRecord>, string>)

  /** `segments.map { end - start }.sum()`. */
  function SegmentsTotal(segments: seq<Segment>): int
  {
    if |segments| == 0 then 0
    else (segments[0].endTime - segments[0].startTime) + SegmentsTotal(segments[1..])
  }

  /** The session's duration in seconds: its span without segments, else the segments' total. */
  function WorkoutDuration(s: ExerciseSession): int
  {
    if |s.segments| == 0 then s.endTime - s.startTime else SegmentsTotal(s.segments)
  }

  /** The total of a concatenation is the sum of the totals. */
  lemma {:induction false} SegmentsTotalAppend(a: seq<Segment>, b: seq<Segment>)
    ensures SegmentsTotal(a + b) == SegmentsTotal(a) + SegmentsTotal(b)
  {
    if |a| > 0 {
      assert (a + b)[1..] == a[1..] + b;
      SegmentsTotalAppend(a[1..], b);
    } else {
      assert a + b == b;
    }
  }

  /** Segments in order, not overlapping, and inside [lo, hi]. */
  predicate SegmentsWithin(segments: seq<Segment>, lo: Instant, hi: Instant)
  {
    |segments| > 0 ==>
      lo <= segments[0].startTime <= segments[0].endTime <= hi &&
      SegmentsWithin(segments[1..], segments[0].endTime, hi)
  }

  /** Ordered, disjoint segments inside [lo, hi] add up to at most hi - lo. */
  lemma {:induction false} SegmentsTotalBounded(segments: seq<Segment>, lo: Instant, hi: Instant)
    requires lo <= hi
    requires SegmentsWithin(segments, lo, hi)
    ensures 0 <= SegmentsTotal(segments) <= hi - lo
  {
    if |segments| > 0 {
      SegmentsTotalBounded(segments[1..], segments[0].endTime, hi);
    }
  }

  /**
   * With well-formed segments the reported duration never exceeds the
   * session's span: pauses between segments are not counted.
   */
  lemma DurationAtMostSpan(s: ExerciseSession)
    requires s.startTime <= s.endTime
    requires SegmentsWithin(s.segments, s.startTime, s.endTime)
    ensures 0 <= WorkoutDuration(s) <= s.endTime - s.startTime
    ensures |s.segments| == 0 ==> WorkoutDuration(s) == s.endTime - s.startTime
  {
    if |s.segments| > 0 {
      SegmentsTotalBounded(s.segments, s.startTime, s.endTime);
    }
  }

  /** Two segments of 120 s and 180 s in a 400 s session give 300 s, not 400 s. */
  lemma PausedSessionDuration()
    ensures WorkoutDuration(ExerciseSession("w", 0, 400, 56, None,
              [Segment(0, 120), Segment(200, 380)], NoData)) == 300
  {
  }

  /** `exerciseTypeMapping[code]`: the name of each Health Connect exercise type the plugin knows. */
  function ExerciseTypeEntry(code: int): Option<string>
  {
    match code
    case 0 => Some("OTHER")
    case 2 => Some("BADMINTON")
    case 4 => Some("BASEBALL")
    case 5 => Some("BASKETBALL")
    case 8 => Some("BIKING")
    case 9 => Some("BIKING_STATIONARY")
    case 10 => Some("BOOT_CAMP")
    case 11 => Some("BOXING")
    case 13 => Some("CALISTHENICS")
    case 14 => Some("CRICKET")
    case 16 => Some("DANCING")
    case 25 => Some("ELLIPTICAL")
    case 26 => Some("EXERCISE_CLASS")
    case 27 => Some("FENCING")
    case 28 => Some("FOOTBALL_AMERICAN")
    case 29 => Some("FOOTBALL_AUSTRALIAN")
    case 31 => Some("FRISBEE_DISC")
    case 32 => Some("GOLF")
    case 33 => Some("GUIDED_BREATHING")
    case 34 => Some("GYMNASTICS")
    case 35 => Some("HANDBALL")
    case 36 => Some("HIGH_INTENSITY_INTERVAL_TRAINING")
    case 37 => Some("HIKING")
    case 38 => Some("ICE_HOCKEY")
    case 39 => Some("ICE_SKATING")
    case 44 => Some("MARTIAL_ARTS")
    case 46 => Some("PADDLING")
    case 47 => Some("PARAGLIDING")
    case 48 => Some("PILATES")
    case 50 => Some("RACQUETBALL")
    case 51 => Some("ROCK_CLIMBING")
    case 52 => Some("ROLLER_HOCKEY")
    case 53 => Some("ROWING")
    case 54 => Some("ROWING_MACHINE")
    case 55 => Some("RUGBY")
    case 56 => Some("RUNNING")
    case 57 => Some("RUNNING_TREADMILL")
    case 58 => Some("SAILING")
    case 59 => Some("SCUBA_DIVING")
    case 60 => Some("SKATING")
    case 61 => Some("SKIING")
    case 62 => Some("SNOWBOARDING")
    case 63 => Some("SNOWSHOEING")
    case 64 => Some("SOCCER")
    case 65 => Some("SOFTBALL")
    case 66 => Some("SQUASH")
    case 68 => Some("STAIR_CLIMBING")
    case 69 => Some("STAIR_CLIMBING_MACHINE")
    case 70 => Some("STRENGTH_TRAINING")
    case 71 => Some("STRETCHING")
    case 72 => Some("SURFING")
    case 73 => Some("SWIMMING_OPEN_WATER")
    case 74 => Some("SWIMMING_POOL")
    case 75 => Some("TABLE_TENNIS")
    case 76 => Some("TENNIS")
    case 78 => Some("VOLLEYBALL")
    case 79 => Some("WALKING")
    case 80 => Some("WATER_POLO")
    case 81 => Some("WEIGHTLIFTING")
    case 82 => Some("WHEELCHAIR")
    case 83 => Some("YOGA")
    case _ => None
  }

  /** `exerciseTypeMapping.getOrDefault(code, "OTHER")`. */
  function ExerciseTypeName(code: int): string
  {
    ExerciseTypeEntry(code).GetOr("OTHER")
  }

  /**
   * A workout is reported as "OTHER" exactly for code 0 and for codes the
   * table does not list; every other code keeps its own name.
   */
  lemma ExerciseTypeOther(code: int)
    ensures ExerciseTypeName(code) == "OTHER" <==> code == 0 || ExerciseTypeEntry(code).None?
    ensures ExerciseTypeEntry(code).Some? ==> ExerciseTypeName(code) == ExerciseTypeEntry(code).value
  {
  }

  /** `records.flatMap { it.samples }`. */
  function FlatSamples(records: seq<HeartRateRecord>): seq<HeartRateSample>
  {
    if |records| == 0 then [] else records[0].samples + FlatSamples(records[1..])
  }

  /** Flattening keeps the records' order: it distributes over concatenation. */
  lemma {:induction false} FlatSamplesAppend(a: seq<HeartRateRecord>, b: seq<HeartRateRecord>)
    ensures FlatSamples(a + b) == FlatSamples(a) + FlatSamples(b)
  {
    if |a| > 0 {
      assert (a + b)[1..] == a[1..] + b;
      FlatSamplesAppend(a[1..], b);
    } else {
      assert a + b == b;
    }
  }

  /** Flattening loses and invents no sample. */
  lemma {:induction false} FlatSamplesMembership(records: seq<HeartRateRecord>, x: HeartRateSample)
    ensures x in FlatSamples(records) <==> exists i :: 0 <= i < |records| && x in records[i].samples
  {
    if |records| > 0 {
      FlatSamplesMembership(records[1..], x);
      if x in FlatSamples(records[1..]) {
        var i :| 0 <= i < |records[1..]| && x in records[1..][i].samples;
        assert x in records[i + 1].samples;
      }
      if exists i :: 0 <= i < |records| && x in records[i].samples {
        var i :| 0 <= i < |records| && x in records[i].samples;
        if i > 0 {
          assert x in records[1..][i - 1].samples;
        }
      }
    }
  }

  /** The JSObject of one heart-rate sample. */
  function HeartRateObject(s: HeartRateSample): Json
  {
    JObj(map["timestamp" := JInstant(s.time), "bpm" := JInt(s.beatsPerMinute)])
  }

  /** The heart-rate array of a sequence of samples. */
  function HeartRateArray(samples: seq<HeartRateSample>): seq<Json>
  {
    if |samples| == 0 then [] else [HeartRateObject(samples[0])] + HeartRateArray(samples[1..])
  }

  lemma {:induction false} HeartRateArrayAppend(a: seq<HeartRateSample>, b: seq<HeartRateSample>)
    ensures HeartRateArray(a + b) == HeartRateArray(a) + HeartRateArray(b)
  {
    if |a| > 0 {
      assert (a + b)[0] == a[0];
      assert (a + b)[1..] == a[1..] + b;
      HeartRateArrayAppend(a[1..], b);
    } else {
      assert a + b == b;
    }
  }

  /** One heart-rate object per sample, in order. */
  lemma {:induction false} HeartRateArrayAt(samples: seq<HeartRateSample>)
    ensures |HeartRateArray(samples)| == |samples|
    ensures forall i :: 0 <= i < |samples| ==> HeartRateArray(samples)[i] == HeartRateObject(samples[i])
  {
    if |samples| > 0 {
      HeartRateArrayAt(samples[1..]);
    }
  }

  /**
   * `queryHeartRateForWorkout`: reads the heart-rate records of the
   * session's range (a failure propagates) and emits one object per sample
   * of all records, concatenated in order.
   */
  method QueryHeartRateForWorkout(hc: HealthConnect, startTime: Instant, endTime: Instant)
    returns (r: Result<seq<Json>, string>)
    ensures hc.heartRateRecords(startTime, endTime).Err? ==> r == Err(hc.heartRateRecords(startTime, endTime).error)
    ensures hc.heartRateRecords(startTime, endTime).Ok? ==>
              r == Ok(HeartRateArray(FlatSamples(hc.heartRateRecords(startTime, endTime).value)))
  {
    var response := hc.heartRateRecords(startTime, endTime);
    if response.Err? {
      return Err(response.error);
    }
    var samples := FlatSamples(response.value);
    var heartRateArray: seq<Json> := [];
    var i := 0;
    while i < |samples|
      invariant 0 <= i <= |samples|
      invariant heartRateArray == HeartRateArray(samples[..i])
    {
      HeartRateArrayAppend(samples[..i], [samples[i]]);
      assert samples[..i + 1] == samples[..i] + [samples[i]];
      assert HeartRateArray([samples[i]]) == [HeartRateObject(samples[i])];
      heartRateArray := heartRateArray + [HeartRateObject(samples[i])];
      i := i + 1;
    }
    assert samples[..i] == samples;
    return Ok(heartRateArray);
  }

  /** Different samples give different heart-rate objects. */
  lemma HeartRateObjectInjective(s: HeartRateSample, t: HeartRateSample)
    requires HeartRateObject(s) == HeartRateObject(t)
    ensures s == t
  {
    assert HeartRateObject(s).fields["timestamp"] == JInstant(s.time);
    assert HeartRateObject(t).fields["timestamp"] == JInstant(t.time);
    assert HeartRateObject(s).fields["bpm"] == JInt(s.beatsPerMinute);
    assert HeartRateObject(t).fields["bpm"] == JInt(t.beatsPerMinute);
  }

  /**
   * The heart-rate array of a session holds exactly the samples of its
   * records: one object per sample, each with that sample's time and rate.
   */
  lemma HeartRateArrayOfRecords(records: seq<HeartRateRecord>, x: HeartRateSample)
    ensures |HeartRateArray(FlatSamples(records))| == |FlatSamples(records)|
    ensures HeartRateObject(x) in HeartRateArray(FlatSamples(records)) <==>
              exists i :: 0 <= i < |records| && x in records[i].samples
  {
    var samples := FlatSamples(records);
    FlatSamplesMembership(records, x);
    HeartRateArrayAt(samples);
    if HeartRateObject(x) in HeartRateArray(samples) {
      var k :| 0 <= k < |samples| && HeartRateArray(samples)[k] == HeartRateObject(x);
      HeartRateObjectInjective(samples[k], x);
    }
    if x in samples {
      var k :| 0 <= k < |samples| && samples[k] == x;
      assert HeartRateArray(samples)[k] == HeartRateObject(x);
    }
  }

  /** The JSObject of one route location; `alt` is left out when there is no altitude. */
  function RouteObject(l: RouteLocation): (o: Json)
    ensures o.JObj? && o.fields.Keys <= {"timestamp", "lat", "lng", "alt"}
    ensures o.JObj? && ("alt" in o.fields <==> l.altitude.Some?)
    ensures o.JObj? && Field(o.fields, "timestamp") == Some(JInstant(l.time))
    ensures o.JObj? && Field(o.fields, "lat") == Some(JNum(l.latitude)) && Field(o.fields, "lng") == Some(JNum(l.longitude))
  {
    var base := map["timestamp" := JInstant(l.time), "lat" := JNum(l.latitude), "lng" := JNum(l.longitude)];
    JObj(PutNullable(base, "alt", if l.altitude.Some? then Some(JLength(l.altitude.value.meters)) else None))
  }

  /** The route array of a route. */
  function RouteArray(route: seq<RouteLocation>): seq<Json>
  {
    if |route| == 0 then [] else [RouteObject(route[0])] + RouteArray(route[1..])
  }

  lemma {:induction false} RouteArrayAppend(a: seq<RouteLocation>, b: seq<RouteLocation>)
    ensures RouteArray(a + b) == RouteArray(a) + RouteArray(b)
  {
    if |a| > 0 {
      assert (a + b)[0] == a[0];
      assert (a + b)[1..] == a[1..] + b;
      RouteArrayAppend(a[1..], b);
    } else {
      assert a + b == b;
    }
  }

  /** One route object per location, in order. */
  lemma {:induction false} RouteArrayAt(route: seq<RouteLocation>)
    ensures |RouteArray(route)| == |route|
    ensures forall i :: 0 <= i < |route| ==> RouteArray(route)[i] == RouteObject(route[i])
  {
    if |route| > 0 {
      RouteArrayAt(route[1..]);
    }
  }

  /** `queryRouteForWorkout`: one route object per location, in order. */
  method QueryRouteForWorkout(route: seq<RouteLocation>) returns (routeArray: seq<Json>)
    ensures routeArray == RouteArray(route)
  {
    routeArray := [];
    var i := 0;
    while i < |route|
      invariant 0 <= i <= |route|
      invariant routeArray == RouteArray(route[..i])
    {
      RouteArrayAppend(route[..i], [route[i]]);
      assert route[..i + 1] == route[..i] + [route[i]];
      assert RouteArray([route[i]]) == [RouteObject(route[i])];
      routeArray := routeArray + [RouteObject(route[i])];
      i := i + 1;
    }
    assert route[..i] == route;
  }

  /**
   * Whether `addWorkoutMetric` puts anything: the granted permissions were
   * read, the permission is among them and the aggregate did not throw.
   */
  predicate MetricPut(s: ExerciseSession, m: MetricAndMapper, hc: HealthConnect)
  {
    hc.granted.Ok? && HasPermission(hc.granted.value, m.permission) && hc.aggregate(m.metric, s.startTime, s.endTime).Ok?
  }

  /** The value `addWorkoutMetric` puts, when it puts one: the mapped total, or null. */
  function MetricValue(s: ExerciseSession, m: MetricAndMapper, hc: HealthConnect): Option<Json>
    requires MetricPut(s, m, hc)
  {
    var v := GetValue(m, hc.aggregate(m.metric, s.startTime, s.endTime).value);
    if v.Some? then Some(JNum(v.value)) else None
  }

  /** What a metric key of a fresh workout object ends up holding. */
  function MetricField(s: ExerciseSession, m: MetricAndMapper, hc: HealthConnect): Option<Json>
  {
    if MetricPut(s, m, hc) then MetricValue(s, m, hc) else None
  }

  /**
   * `addWorkoutMetric`: the failure of the granted-permission read, which
   * happens before the `try` and so propagates; with the permission, and
   * when the aggregate does not throw, the mapped value is put under the
   * metric's name (a null value leaves the key out); otherwise the object
   * is unchanged. A failing aggregate is logged and swallowed.
   */
  function AddWorkoutMetric(workout: ExerciseSession, jsWorkout: JsObject, m: MetricAndMapper, hc: HealthConnect)
    : (r: Result<JsObject, string>)
    ensures hc.granted.Err? ==> r == Err(hc.granted.error)
    ensures hc.granted.Ok? ==> r.Ok?
    ensures r.Ok? && MetricPut(workout, m, hc) ==> Field(r.value, m.name) == MetricValue(workout, m, hc)
    ensures r.Ok? && !MetricPut(workout, m, hc) ==> r.value == jsWorkout
    ensures r.Ok? ==> forall k :: k != m.name ==> Field(r.value, k) == Field(jsWorkout, k)
    ensures r.Ok? ==> r.value.Keys <= jsWorkout.Keys + {m.name}
    ensures r.Ok? && m.name !in jsWorkout ==> Field(r.value, m.name) == MetricField(workout, m, hc)
  {
    match hc.granted
    case Err(e) => Err(e)
    case Ok(granted) =>
      if HasPermission(granted, m.permission) then
        match hc.aggregate(m.metric, workout.startTime, workout.endTime)
        case Err(_) => Ok(jsWorkout)
        case Ok(a) =>
          var value := GetValue(m, a);
          Ok(PutNullable(jsWorkout, m.name, if value.Some? then Some(JNum(value.value)) else None))
      else Ok(jsWorkout)
  }

  /** The `include*` flags of a workout query. */
  datatype WorkoutFlags = WorkoutFlags(includeHeartRate: bool, includeRoute: bool, includeSteps: bool)

  /** Whether the heart-rate samples are asked for: the flag and the heart-rate permission. */
  predicate WantsHeartRate(flags: WorkoutFlags, hc: HealthConnect)
  {
    flags.includeHeartRate && hc.granted.Ok? && HasPermission(hc.granted.value, ReadHeartRate)
  }

  /** The heart-rate read that fails the whole query. */
  predicate HeartRateFails(s: ExerciseSession, flags: WorkoutFlags, hc: HealthConnect)
  {
    WantsHeartRate(flags, hc) && hc.heartRateRecords(s.startTime, s.endTime).Err?
  }

  /** What fails a session, and with it the whole query: the granted-permission read or a wanted heart-rate read. */
  predicate SessionFails(s: ExerciseSession, flags: WorkoutFlags, hc: HealthConnect)
  {
    hc.granted.Err? || HeartRateFails(s, flags, hc)
  }

  /** The message of the read that fails a session: the granted-permission read comes first. */
  function SessionError(s: ExerciseSession, flags: WorkoutFlags, hc: HealthConnect): string
    requires SessionFails(s, flags, hc)
  {
    if hc.granted.Err? then hc.granted.error else hc.heartRateRecords(s.startTime, s.endTime).error
  }

  const HeaderKeys: set<string> := {"id", "startDate", "endDate", "workoutType", "title", "duration"}
  const MetricKeys: set<string> := {"steps", "calories", "distance"}
  const WorkoutKeys: set<string> := HeaderKeys + MetricKeys + {"heartRate", "route"}

  /** The key groups of a workout object do not overlap. */
  lemma WorkoutKeysDistinct()
    ensures MetricKeys !! HeaderKeys
    ensures "heartRate" !in HeaderKeys + MetricKeys && "route" !in HeaderKeys + MetricKeys
    ensures "steps" != "calories" && "steps" != "distance" && "calories" != "distance"
  {
  }

  /**
   * The fields every workout object has: its identity, times, exercise type
   * (or "OTHER") and duration, and the title when the session has one.
   */
  ghost predicate HasWorkoutHeader(o: JsObject, s: ExerciseSession)
  {
    && Field(o, "id") == Some(JStr(s.id))
    && Field(o, "startDate") == Some(JInstant(s.startTime))
    && Field(o, "endDate") == Some(JInstant(s.endTime))
    && Field(o, "workoutType") == Some(JStr(ExerciseTypeName(s.exerciseType)))
    && Field(o, "title") == (if s.title.Some? then Some(JStr(s.title.value)) else None)
    && Field(o, "duration") == Some(JInt(WorkoutDuration(s)))
  }

  /**
   * `steps` only when asked for, and `steps`, `calories` and `distance`
   * only with their permission, an aggregate that did not throw and a value.
   */
  ghost predicate HasWorkoutMetrics(o: JsObject, s: ExerciseSession, flags: WorkoutFlags, hc: HealthConnect)
  {
    && Field(o, "steps") == (if flags.includeSteps then MetricField(s, StepsMetric, hc) else None)
    && Field(o, "calories") == MetricField(s, CaloriesMetric, hc)
    && Field(o, "distance") == MetricField(s, DistanceMetric, hc)
  }

  /**
   * `heartRate` exactly when asked for with the heart-rate permission,
   * holding every sample of the session's range; `route` exactly when asked
   * for and the route result is data, holding every location.
   */
  ghost predicate HasWorkoutSamples(o: JsObject, s: ExerciseSession, flags: WorkoutFlags, hc: HealthConnect)
  {
    && ("heartRate" in o <==> WantsHeartRate(flags, hc))
    && ("heartRate" in o ==>
          && hc.heartRateRecords(s.startTime, s.endTime).Ok?
          && o["heartRate"] == JArr(HeartRateArray(FlatSamples(hc.heartRateRecords(s.startTime, s.endTime).value))))
    && ("route" in o <==> flags.includeRoute && s.exerciseRouteResult.Data?)
    && ("route" in o ==> o["route"] == JArr(RouteArray(s.exerciseRouteResult.route)))
  }

  /** The workout object of one session. */
  ghost predicate IsWorkoutObject(o: JsObject, s: ExerciseSession, flags: WorkoutFlags, hc: HealthConnect)
  {
    && o.Keys <= WorkoutKeys
    && HasWorkoutHeader(o, s)
    && HasWorkoutMetrics(o, s, flags, hc)
    && HasWorkoutSamples(o, s, flags, hc)
  }

  /** The first six puts of the loop body: the fields every workout object has. */
  function WorkoutHeader(workout: ExerciseSession): (o: JsObject)
    ensures o.Keys <= HeaderKeys
    ensures HasWorkoutHeader(o, workout)
  {
    var duration := WorkoutDuration(workout);
    var o := map["id" := JStr(workout.id),
                 "startDate" := JInstant(workout.startTime),
                 "endDate" := JInstant(workout.endTime),
                 "workoutType" := JStr(ExerciseTypeName(workout.exerciseType))];
    PutNullable(o, "title", if workout.title.Some? then Some(JStr(workout.title.value)) else None)["duration" := JInt(duration)]
  }

  /**
   * The three `addWorkoutMetric` calls, `steps` only when asked for; the
   * first failing granted-permission read ends them.
   */
  function AddWorkoutMetrics(workout: ExerciseSession, header: JsObject, flags: WorkoutFlags, hc: HealthConnect)
    : (r: Result<JsObject, string>)
    requires header.Keys <= HeaderKeys
    requires HasWorkoutHeader(header, workout)
    ensures hc.granted.Err? ==> r == Err(hc.granted.error)
    ensures hc.granted.Ok? ==> r.Ok?
    ensures r.Ok? ==> r.value.Keys <= HeaderKeys + MetricKeys
    ensures r.Ok? ==> HasWorkoutHeader(r.value, workout)
    ensures r.Ok? ==> HasWorkoutMetrics(r.value, workout, flags, hc)
  {
    var withSteps := if flags.includeSteps then AddWorkoutMetric(workout, header, StepsMetric, hc) else Ok(header);
    if withSteps.Err? then withSteps
    else
      var withCalories := AddWorkoutMetric(workout, withSteps.value, CaloriesMetric, hc);
      if withCalories.Err? then withCalories
      else
        WorkoutKeysDistinct();
        AddWorkoutMetric(workout, withCalories.value, DistanceMetric, hc)
  }

  /** Putting `heartRate` or `route` keeps the header and the metric fields. */
  lemma PutKeepsHeaderAndMetrics(o: JsObject, key: string, v: Json, s: ExerciseSession,
                                 flags: WorkoutFlags, hc: HealthConnect)
    requires key == "heartRate" || key == "route"
    requires HasWorkoutHeader(o, s) && HasWorkoutMetrics(o, s, flags, hc)
    ensures HasWorkoutHeader(o[key := v], s) && HasWorkoutMetrics(o[key := v], s, flags, hc)
  {
  }

  /**
   * The body of the `queryWorkouts` loop for one session: the workout
   * object, or the failure of its granted-permission or heart-rate read,
   * which aborts the query.
   */
  function WorkoutObject(s: ExerciseSession, flags: WorkoutFlags, hc: HealthConnect): Result<JsObject, string>
  {
    match AddWorkoutMetrics(s, WorkoutHeader(s), flags, hc)
    case Err(e) => Err(e)
    case Ok(withMetrics) =>
    if WantsHeartRate(flags, hc) && hc.heartRateRecords(s.startTime, s.endTime).Err? then
      Err(hc.heartRateRecords(s.startTime, s.endTime).error)
    else
      var withHeartRate :=
        if WantsHeartRate(flags, hc) then
          withMetrics["heartRate" := JArr(HeartRateArray(FlatSamples(hc.heartRateRecords(s.startTime, s.endTime).value)))]
        else withMetrics;
      Ok(if flags.includeRoute && s.exerciseRouteResult.Data? then
           withHeartRate["route" := JArr(RouteArray(s.exerciseRouteResult.route))]
         else withHeartRate)
  }

  /**
   * A session's object is missing exactly when its granted-permission read
   * fails or its wanted heart-rate read fails, and then the failure is that
   * read's; otherwise it is the session's workout object.
   */
  lemma WorkoutObjectShape(s: ExerciseSession, flags: WorkoutFlags, hc: HealthConnect)
    ensures WorkoutObject(s, flags, hc).Err? <==> SessionFails(s, flags, hc)
    ensures WorkoutObject(s, flags, hc).Err? ==> WorkoutObject(s, flags, hc).error == SessionError(s, flags, hc)
    ensures WorkoutObject(s, flags, hc).Ok? ==> IsWorkoutObject(WorkoutObject(s, flags, hc).value, s, flags, hc)
  {
    if !SessionFails(s, flags, hc) {
      WorkoutObjectSucceeds(s, flags, hc);
    }
  }

  /** A session that does not fail yields its full workout object. */
  lemma WorkoutObjectSucceeds(s: ExerciseSession, flags: WorkoutFlags, hc: HealthConnect)
    requires !SessionFails(s, flags, hc)
    ensures WorkoutObject(s, flags, hc).Ok? && IsWorkoutObject(WorkoutObject(s, flags, hc).value, s, flags, hc)
  {
    var withMetrics := AddWorkoutMetrics(s, WorkoutHeader(s), flags, hc).value;
    var withHeartRate := withMetrics;
    if WantsHeartRate(flags, hc) {
      var heartRate := JArr(HeartRateArray(FlatSamples(hc.heartRateRecords(s.startTime, s.endTime).value)));
      PutKeepsHeaderAndMetrics(withMetrics, "heartRate", heartRate, s, flags, hc);
      withHeartRate := withMetrics["heartRate" := heartRate];
    }
    var withRoute := withHeartRate;
    if flags.includeRoute && s.exerciseRouteResult.Data? {
      var route := JArr(RouteArray(s.exerciseRouteResult.route));
      PutKeepsHeaderAndMetrics(withHeartRate, "route", route, s, flags, hc);
      withRoute := withHeartRate["route" := route];
    }
    WorkoutKeysDistinct();
    assert WorkoutObject(s, flags, hc) == Ok(withRoute);
    assert HasWorkoutSamples(withRoute, s, flags, hc);
  }

  /** The loop body of `queryWorkouts`, with the heart-rate and route loops. */
  method BuildWorkoutObject(workout: ExerciseSession, flags: WorkoutFlags, hc: HealthConnect)
    returns (r: Result<JsObject, string>)
    ensures r == WorkoutObject(workout, flags, hc)
  {
    var withMetrics := AddWorkoutMetrics(workout, WorkoutHeader(workout), flags, hc);
    if withMetrics.Err? {
      return Err(withMetrics.error);
    }
    var workoutObject := withMetrics.value;
    if flags.includeHeartRate && HasPermission(hc.granted.value, ReadHeartRate) {
      var heartRates := QueryHeartRateForWorkout(hc, workout.startTime, workout.endTime);
      if heartRates.Err? {
        return Err(heartRates.error);
      }
      workoutObject := workoutObject["heartRate" := JArr(heartRates.value)];
    }
    if flags.includeRoute && workout.exerciseRouteResult.Data? {
      var route := QueryRouteForWorkout(workout.exerciseRouteResult.route);
      workoutObject := workoutObject["route" := JArr(route)];
    }
    return Ok(workoutObject);
  }

  /** The loop body as a function of the session. */
  function WorkoutBuilder(flags: WorkoutFlags, hc: HealthConnect): ExerciseSession -> Result<JsObject, string>
  {
    s => WorkoutObject(s, flags, hc)
  }

  /** The workout objects of a sequence of sessions, or the first failure among them. */
  function WorkoutObjects(sessions: seq<ExerciseSession>, flags: WorkoutFlags, hc: HealthConnect)
    : Result<seq<JsObject>, string>
  {
    MapUntilError(WorkoutBuilder(flags, hc), sessions)
  }

  /**
   * The workout objects exist exactly when no session fails (by its
   * granted-permission read or its heart-rate read), and then there is one
   * per session, in order, each the workout object of its session.
   */
  lemma WorkoutObjectsShape(sessions: seq<ExerciseSession>, flags: WorkoutFlags, hc: HealthConnect)
    ensures WorkoutObjects(sessions, flags, hc).Ok? <==>
              forall i :: 0 <= i < |sessions| ==> !SessionFails(sessions[i], flags, hc)
    ensures WorkoutObjects(sessions, flags, hc).Ok? ==>
              && |WorkoutObjects(sessions, flags, hc).value| == |sessions|
              && forall i :: 0 <= i < |sessions| ==>
                   IsWorkoutObject(WorkoutObjects(sessions, flags, hc).value[i], sessions[i], flags, hc)
  {
    var build := WorkoutBuilder(flags, hc);
    MapUntilErrorShape(build, sessions);
    forall i | 0 <= i < |sessions|
      ensures build(sessions[i]) == WorkoutObject(sessions[i], flags, hc)
      ensures WorkoutObject(sessions[i], flags, hc).Err? <==> SessionFails(sessions[i], flags, hc)
      ensures WorkoutObject(sessions[i], flags, hc).Ok? ==>
                IsWorkoutObject(WorkoutObject(sessions[i], flags, hc).value, sessions[i], flags, hc)
    {
      WorkoutObjectShape(sessions[i], flags, hc);
    }
  }

  /**
   * A failed query fails with the error of its first failing session, and
   * with the granted-permission read's error when that read fails.
   */
  lemma WorkoutObjectsFailure(sessions: seq<ExerciseSession>, flags: WorkoutFlags, hc: HealthConnect)
    requires WorkoutObjects(sessions, flags, hc).Err?
    ensures exists i :: 0 <= i < |sessions|
              && SessionFails(sessions[i], flags, hc)
              && SessionError(sessions[i], flags, hc) == WorkoutObjects(sessions, flags, hc).error
              && forall j :: 0 <= j < i ==> !SessionFails(sessions[j], flags, hc)
    ensures hc.granted.Err? ==> WorkoutObjects(sessions, flags, hc).error == hc.granted.error
  {
    var build := WorkoutBuilder(flags, hc);
    MapUntilErrorFirstFailure(build, sessions);
    var i :| 0 <= i < |sessions| && build(sessions[i]) == Err(MapUntilError(build, sessions).error)
             && forall j :: 0 <= j < i ==> build(sessions[j]).Ok?;
    WorkoutObjectShape(sessions[i], flags, hc);
    forall j | 0 <= j < i
      ensures !SessionFails(sessions[j], flags, hc)
    {
      WorkoutObjectShape(sessions[j], flags, hc);
    }
  }

  /** The parameters of a `queryWorkouts` call; each may be missing. */
  datatype WorkoutsCall = WorkoutsCall(
    startDate: Option<string>, endDate: Option<string>,
    includeHeartRate: Option<bool>, includeRoute: Option<bool>, includeSteps: Option<bool>)

  /** How a call fails: rejected through the call, or an exception escaping the plugin method. */
  datatype CallFailure = Rejected(message: string) | Thrown(message: string)

  const MissingWorkoutDates := "Missing required parameters: startDate or endDate"

  /** The `pageSize` of the session read: only the first page is processed. */
  const SessionPageSize: nat := 1000

  /** The sessions of the first page. */
  function FirstPage(sessions: seq<ExerciseSession>): (page: seq<ExerciseSession>)
    ensures |page| == if |sessions| < SessionPageSize then |sessions| else SessionPageSize
    ensures page <= sessions
  {
    if |sessions| < SessionPageSize then sessions else sessions[..SessionPageSize]
  }

  /** `getBoolean(name, false) == true`. */
  function FlagsOf(call: WorkoutsCall): WorkoutFlags
  {
    WorkoutFlags(call.includeHeartRate.GetOr(false), call.includeRoute.GetOr(false), call.includeSteps.GetOr(false))
  }

  /**
   * `queryWorkouts`: rejects without both dates; a date that does not parse
   * throws out of the plugin method; a failed session read rejects.
   * Otherwise the workout objects of the sessions of the first page, in the
   * provider's order, unless a heart-rate read fails, which rejects the
   * whole call with the first such failure.
   */
  method QueryWorkouts(call: WorkoutsCall, parse: string -> Result<Instant, string>, hc: HealthConnect,
                       readSessions: (Instant, Instant) -> Result<seq<ExerciseSession>, string>)
    returns (r: Result<seq<JsObject>, CallFailure>)
    ensures call.startDate.None? || call.endDate.None? ==> r == Err(Rejected(MissingWorkoutDates))
    ensures call.startDate.Some? && call.endDate.Some? && parse(call.startDate.value).Err? ==>
              r == Err(Thrown(parse(call.startDate.value).error))
    ensures call.startDate.Some? && call.endDate.Some? && parse(call.startDate.value).Ok? &&
            parse(call.endDate.value).Err? ==>
              r == Err(Thrown(parse(call.endDate.value).error))
    ensures call.startDate.Some? && call.endDate.Some? &&
            parse(call.startDate.value).Ok? && parse(call.endDate.value).Ok? ==>
              var sessions := readSessions(parse(call.startDate.value).value, parse(call.endDate.value).value);
              && (sessions.Err? ==> r == Err(Rejected("Error querying workouts: " + sessions.error)))
              && (sessions.Ok? ==>
                    var objects := WorkoutObjects(FirstPage(sessions.value), FlagsOf(call), hc);
                    r == if objects.Ok? then Ok(objects.value) else Err(Rejected("Error querying workouts: " + objects.error)))
  {
    if call.startDate.None? || call.endDate.None? {
      return Err(Rejected(MissingWorkoutDates));
    }
    var flags := FlagsOf(call);
    var startTime := parse(call.startDate.value);
    if startTime.Err? {
      return Err(Thrown(startTime.error));
    }
    var endTime := parse(call.endDate.value);
    if endTime.Err? {
      return Err(Thrown(endTime.error));
    }
    var response := readSessions(startTime.value, endTime.value);
    if response.Err? {
      return Err(Rejected("Error querying workouts: " + response.error));
    }
    var workouts := CollectWorkouts(FirstPage(response.value), flags, hc);
    if workouts.Err? {
      return Err(Rejected("Error querying workouts: " + workouts.error));
    }
    return Ok(workouts.value);
  }

  /** The `for (workout in response.records)` loop. */
  method CollectWorkouts(records: seq<ExerciseSession>, flags: WorkoutFlags, hc: HealthConnect)
    returns (r: Result<seq<JsObject>, string>)
    ensures r == WorkoutObjects(records, flags, hc)
  {
    var workoutsArray: seq<JsObject> := [];
    var i := 0;
    while i < |records|
      invariant 0 <= i <= |records|
      invariant WorkoutObjects(records[..i], flags, hc) == Ok(workoutsArray)
    {
      var workoutObject := BuildWorkoutObject(records[i], flags, hc);
      MapUntilErrorStep(WorkoutBuilder(flags, hc), records, i);
      if workoutObject.Err? {
        return Err(workoutObject.error);
      }
      workoutsArray := workoutsArray + [workoutObject.value];
      i := i + 1;
    }
    assert records[..i] == records;
    return Ok(workoutsArray);
  }
}
