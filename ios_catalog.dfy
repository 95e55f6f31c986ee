/**
 * The fixed tables of the iOS plugin: which HealthKit object types a
 * permission name asks to read, which quantity type an aggregated data type
 * reads, the statistics interval of a bucket name, and the workout activity
 * names.
 */
module IosCatalog {
  import opened Wrappers

  /** The HealthKit object types the plugin reads. */
  datatype HKObjectType =
    | StepCount
    | ActiveEnergyBurned
    | WorkoutType
    | HeartRate
    | RestingHeartRate
    | HeartRateVariabilitySDNN
    | AppleStandTime
    | WorkoutRoute
    | DistanceCycling
    | DistanceSwimming
    | DistanceWalkingRunning
    | DistanceDownhillSnowSports

  /** The permission names `permissionToHKObjectType` knows. */
  const IosPermissionNames: set<string> :=
    {"READ_STEPS", "READ_ACTIVE_CALORIES", "READ_WORKOUTS", "READ_HEART_RATE",
     "READ_RESTING_HEART_RATE", "READ_HRV", "READ_STAND_TIME", "READ_ROUTE", "READ_DISTANCE"}

  /** The four distance types `READ_DISTANCE` asks for, in the order they are listed. */
  const DistanceTypes: seq<HKObjectType> :=
    [DistanceCycling, DistanceSwimming, DistanceWalkingRunning, DistanceDownhillSnowSports]

  /** The permission name under which each object type is requested. */
  function PermissionOfType(t: HKObjectType): (p: string)
    ensures p in IosPermissionNames
  {
    match t
    case StepCount => "READ_STEPS"
    case ActiveEnergyBurned => "READ_ACTIVE_CALORIES"
    case WorkoutType => "READ_WORKOUTS"
    case HeartRate => "READ_HEART_RATE"
    case RestingHeartRate => "READ_RESTING_HEART_RATE"
    case HeartRateVariabilitySDNN => "READ_HRV"
    case AppleStandTime => "READ_STAND_TIME"
    case WorkoutRoute => "READ_ROUTE"
    case _ => "READ_DISTANCE"
  }

  /**
   * `permissionToHKObjectType`: the object types one permission name asks
   * to read; every type listed is requested under that name.
   */
  function PermissionToHKObjectType(permission: string): (types: seq<HKObjectType>)
    ensures forall i :: 0 <= i < |types| ==> PermissionOfType(types[i]) == permission
  {
    match permission
    case "READ_STEPS" => [StepCount]
    case "READ_ACTIVE_CALORIES" => [ActiveEnergyBurned]
    case "READ_WORKOUTS" => [WorkoutType]
    case "READ_HEART_RATE" => [HeartRate]
    case "READ_RESTING_HEART_RATE" => [RestingHeartRate]
    case "READ_HRV" => [HeartRateVariabilitySDNN]
    case "READ_STAND_TIME" => [AppleStandTime]
    case "READ_ROUTE" => [WorkoutRoute]
    case "READ_DISTANCE" => DistanceTypes
    case _ => []
  }

  /**
   * `READ_DISTANCE` fans out to the four distance types, every other known
   * name to exactly one type, and an unknown name to none.
   */
  lemma PermissionTypeCount(permission: string)
    ensures permission == "READ_DISTANCE" ==> PermissionToHKObjectType(permission) == DistanceTypes
    ensures permission in IosPermissionNames - {"READ_DISTANCE"} ==> |PermissionToHKObjectType(permission)| == 1
    ensures permission !in IosPermissionNames ==> PermissionToHKObjectType(permission) == []
  {
    if permission in IosPermissionNames - {"READ_DISTANCE"} {
      assert permission in {"READ_STEPS", "READ_ACTIVE_CALORIES", "READ_WORKOUTS", "READ_HEART_RATE",
                            "READ_RESTING_HEART_RATE", "READ_HRV", "READ_STAND_TIME", "READ_ROUTE"};
    }
  }

  /** A type is listed for a permission name exactly when it is requested under that name. */
  lemma PermissionTypesInverse(permission: string, t: HKObjectType)
    ensures t in PermissionToHKObjectType(permission) <==> permission == PermissionOfType(t)
  {
    if permission == PermissionOfType(t) {
      match t
      case DistanceCycling => assert DistanceTypes[0] == t;
      case DistanceSwimming => assert DistanceTypes[1] == t;
      case DistanceWalkingRunning => assert DistanceTypes[2] == t;
      case DistanceDownhillSnowSports => assert DistanceTypes[3] == t;
      case _ =>
    }
  }

  /** `permissions.flatMap { permissionToHKObjectType($0) }`. */
  function FlatTypes(permissions: seq<string>): seq<HKObjectType>
  {
    if |permissions| == 0 then [] else PermissionToHKObjectType(permissions[0]) + FlatTypes(permissions[1..])
  }

  /** `Set(types)`: the read types of one authorization request. */
  function RequestedTypes(permissions: seq<string>): set<HKObjectType>
  {
    set t | t in FlatTypes(permissions)
  }

  /**
   * The authorization request reads a type exactly when its permission
   * name is among the requested strings: the union of the per-name lists.
   */
  lemma {:induction false} RequestedTypesMembership(permissions: seq<string>, t: HKObjectType)
    ensures t in RequestedTypes(permissions) <==> PermissionOfType(t) in permissions
  {
    if |permissions| > 0 {
      RequestedTypesMembership(permissions[1..], t);
      PermissionTypesInverse(permissions[0], t);
      assert permissions == [permissions[0]] + permissions[1..];
      assert t in FlatTypes(permissions) <==> t in PermissionToHKObjectType(permissions[0]) || t in FlatTypes(permissions[1..]);
    }
  }

  /** Strings none of which is a known permission name ask for nothing. */
  lemma UnknownPermissionsRequestNothing(permissions: seq<string>)
    requires forall i :: 0 <= i < |permissions| ==> permissions[i] !in IosPermissionNames
    ensures RequestedTypes(permissions) == {}
  {
    forall t
      ensures t !in RequestedTypes(permissions)
    {
      RequestedTypesMembership(permissions, t);
    }
  }

  /** The data types `aggregateTypeToHKQuantityType` knows. */
  const AggregateDataTypes: set<string> := {"steps", "active-calories", "hrv", "resting-heart-rate", "stand-time"}

  /** The data type name under which a quantity type is aggregated, if any. */
  function AggregateDataTypeOf(t: HKObjectType): Option<string>
  {
    match t
    case StepCount => Some("steps")
    case ActiveEnergyBurned => Some("active-calories")
    case HeartRateVariabilitySDNN => Some("hrv")
    case RestingHeartRate => Some("resting-heart-rate")
    case AppleStandTime => Some("stand-time")
    case _ => None
  }

  /**
   * `aggregateTypeToHKQuantityType`: a quantity type for the five known
   * data types and nothing for any other string.
   */
  function AggregateTypeToHKQuantityType(dataType: string): (r: Option<HKObjectType>)
    ensures r.Some? <==> dataType in AggregateDataTypes
    ensures r.Some? ==> AggregateDataTypeOf(r.value) == Some(dataType)
  {
    match dataType
    case "steps" => Some(StepCount)
    case "active-calories" => Some(ActiveEnergyBurned)
    case "hrv" => Some(HeartRateVariabilitySDNN)
    case "resting-heart-rate" => Some(RestingHeartRate)
    case "stand-time" => Some(AppleStandTime)
    case _ => None
  }

  /** The two tables are inverse to each other. */
  lemma AggregateTypeRoundTrip(dataType: string, t: HKObjectType)
    ensures AggregateTypeToHKQuantityType(dataType) == Some(t) <==> AggregateDataTypeOf(t) == Some(dataType)
  {
    if AggregateDataTypeOf(t) == Some(dataType) {
      match t
      case StepCount =>
      case ActiveEnergyBurned =>
      case HeartRateVariabilitySDNN =>
      case RestingHeartRate =>
      case AppleStandTime =>
    }
  }

  /** Every aggregatable type is one a permission name asks to read. */
  lemma AggregatedTypesAreRequestable(dataType: string)
    requires AggregateTypeToHKQuantityType(dataType).Some?
    ensures AggregateTypeToHKQuantityType(dataType).value in RequestedTypes([PermissionOfType(AggregateTypeToHKQuantityType(dataType).value)])
  {
    var t := AggregateTypeToHKQuantityType(dataType).value;
    RequestedTypesMembership([PermissionOfType(t)], t);
  }

  /** The `DateComponents` of a statistics interval. */
  datatype Interval = Hours(hours: nat) | Days(days: nat) | WeeksOfYear(weeks: nat)

  /** The bucket name of an interval's unit. */
  function BucketName(iv: Interval): string
  {
    match iv
    case Hours(_) => "hour"
    case Days(_) => "day"
    case WeeksOfYear(_) => "week"
  }

  /** `calculateInterval`: one hour, one day or one week; nothing for other names. */
  function CalculateInterval(bucket: string): (r: Option<Interval>)
    ensures r.Some? <==> bucket in {"hour", "day", "week"}
    ensures r.Some? ==> BucketName(r.value) == bucket
  {
    match bucket
    case "hour" => Some(Hours(1))
    case "day" => Some(Days(1))
    case "week" => Some(WeeksOfYear(1))
    case _ => None
  }

  /** The interval of a bucket is always a single unit of that bucket, and every unit has its bucket. */
  lemma CalculateIntervalRoundTrip(bucket: string, iv: Interval)
    ensures CalculateInterval(bucket) == Some(iv) <==> bucket == BucketName(iv) && iv in {Hours(1), Days(1), WeeksOfYear(1)}
  {
  }

  /** `workoutTypeMapping`, keyed by the raw value of `HKWorkoutActivityType`. */
  function WorkoutTypeMapping(code: nat): Option<string>
  {
    match code
    case 1 => Some("americanFootball")
    case 2 => Some("archery")
    case 3 => Some("australianFootball")
    case 4 => Some("badminton")
    case 5 => Some("baseball")
    case 6 => Some("basketball")
    case 7 => Some("bowling")
    case 8 => Some("boxing")
    case 9 => Some("climbing")
    case 10 => Some("cricket")
    case 11 => Some("crossTraining")
    case 12 => Some("curling")
    case 13 => Some("cycling")
    case 14 => Some("dance")
    case 15 => Some("danceInspiredTraining")
    case 16 => Some("elliptical")
    case 17 => Some("equestrianSports")
    case 18 => Some("fencing")
    case 19 => Some("fishing")
    case 20 => Some("functionalStrengthTraining")
    case 21 => Some("golf")
    case 22 => Some("gymnastics")
    case 23 => Some("handball")
    case 24 => Some("hiking")
    case 25 => Some("hockey")
    case 26 => Some("hunting")
    case 27 => Some("lacrosse")
    case 28 => Some("martialArts")
    case 29 => Some("mindAndBody")
    case 30 => Some("mixedMetabolicCardioTraining")
    case 31 => Some("paddleSports")
    case 32 => Some("play")
    case 33 => Some("preparationAndRecovery")
    case 34 => Some("racquetball")
    case 35 => Some("rowing")
    case 36 => Some("rugby")
    case 37 => Some("running")
    case 38 => Some("sailing")
    case 39 => Some("skatingSports")
    case 40 => Some("snowSports")
    case 41 => Some("soccer")
    case 42 => Some("softball")
    case 43 => Some("squash")
    case 44 => Some("stairClimbing")
    case 45 => Some("surfingSports")
    case 46 => Some("swimming")
    case 47 => Some("tableTennis")
    case 48 => Some("tennis")
    case 49 => Some("trackAndField")
    case 50 => Some("traditionalStrengthTraining")
    case 51 => Some("volleyball")
    case 52 => Some("walking")
    case 53 => Some("waterFitness")
    case 54 => Some("waterPolo")
    case 55 => Some("waterSports")
    case 56 => Some("wrestling")
    case 57 => Some("yoga")
    case 58 => Some("barre")
    case 59 => Some("coreTraining")
    case 60 => Some("crossCountrySkiing")
    case 61 => Some("downhillSkiing")
    case 62 => Some("flexibility")
    case 63 => Some("highIntensityIntervalTraining")
    case 64 => Some("jumpRope")
    case 65 => Some("kickboxing")
    case 66 => Some("pilates")
    case 67 => Some("snowboarding")
    case 68 => Some("stairs")
    case 69 => Some("stepTraining")
    case 70 => Some("wheelchairWalkPace")
    case 71 => Some("wheelchairRunPace")
    case 72 => Some("taiChi")
    case 73 => Some("mixedCardio")
    case 74 => Some("handCycling")
    case 75 => Some("discSports")
    case 76 => Some("fitnessGaming")
    case 77 => Some("cardioDance")
    case 78 => Some("socialDance")
    case 79 => Some("pickleball")
    case 80 => Some("cooldown")
    case 82 => Some("swimBikeRun")
    case 83 => Some("transition")
    case 84 => Some("underwaterDiving")
    case 3000 => Some("other")
    case _ => None
  }

  /** `workoutTypeMapping[code, default: "other"]`. */
  function WorkoutTypeName(code: nat): string
  {
    WorkoutTypeMapping(code).GetOr("other")
  }

  /** The table lists the codes 1 to 84 except 81, and 3000. */
  lemma WorkoutTypeMappingDomain(code: nat)
    ensures WorkoutTypeMapping(code).Some? <==> (1 <= code <= 84 && code != 81) || code == 3000
  {
  }

  /**
   * A workout is reported as "other" exactly for code 3000 and for codes
   * the table does not list; every other code keeps its own name.
   */
  lemma WorkoutTypeOther(code: nat)
    ensures WorkoutTypeName(code) == "other" <==> code == 3000 || WorkoutTypeMapping(code).None?
    ensures WorkoutTypeMapping(code).Some? ==> WorkoutTypeName(code) == WorkoutTypeMapping(code).value
  {
  }
}
