/**
 * Where the Android and iOS plugins answer the same call differently: the
 * calorie names, unknown permission strings, buckets, the workout-type
 * default, and which workout fields are always present.
 */
module Platforms {
  import opened Wrappers
  import opened JsonValues
  import AndroidPermissions
  import AndroidQueries
  import IosCatalog
  import IosPlugin

  /**
   * Android reads calories as `READ_CALORIES` and data type `calories`; iOS
   * as `READ_ACTIVE_CALORIES` and `active-calories`. Neither accepts the
   * other's names.
   */
  lemma CaloriesNamesDiffer()
    ensures AndroidPermissions.From("READ_CALORIES") == Some(AndroidPermissions.ReadCalories)
    ensures AndroidPermissions.From("READ_ACTIVE_CALORIES").None?
    ensures IosCatalog.PermissionToHKObjectType("READ_ACTIVE_CALORIES") == [IosCatalog.ActiveEnergyBurned]
    ensures IosCatalog.PermissionToHKObjectType("READ_CALORIES") == []
    ensures AndroidQueries.GetMetricAndMapper("calories").Ok?
    ensures AndroidQueries.GetMetricAndMapper("active-calories").Err?
    ensures IosCatalog.AggregateTypeToHKQuantityType("active-calories") == Some(IosCatalog.ActiveEnergyBurned)
    ensures IosCatalog.AggregateTypeToHKQuantityType("calories").None?
  {
  }

  /**
   * A requested string that names no Android permission is missing from
   * Android's grant map, while iOS answers for every requested string.
   */
  lemma UnknownPermissionStrings(requested: seq<string>, s: string, assumed: bool)
    requires s in requested && AndroidPermissions.From(s).None?
    ensures s !in AndroidPermissions.ResultKeys(AndroidPermissions.ParsePermissions(requested))
    ensures s in IosPlugin.AssumedGrants(requested, assumed)["permissions"].fields
  {
    AndroidPermissions.ResultKeysAreParsedNames(AndroidPermissions.ParsePermissions(requested));
    IosPlugin.AssumedGrantsEchoRequest(requested, assumed, s);
  }

  /** Every bucket Android accepts iOS accepts too; iOS also takes `hour` and `week`. */
  lemma BucketsDiffer(bucket: string)
    ensures AndroidQueries.BucketPeriod(bucket).Ok? ==> IosCatalog.CalculateInterval(bucket) == Some(IosCatalog.Days(1))
    ensures IosCatalog.CalculateInterval(bucket).Some? && AndroidQueries.BucketPeriod(bucket).Err? <==>
              bucket == "hour" || bucket == "week"
  {
  }

  /** An activity code neither table lists is "OTHER" on Android and "other" on iOS. */
  lemma UnlistedWorkoutType(code: nat)
    requires AndroidQueries.ExerciseTypeEntry(code).None? && IosCatalog.WorkoutTypeMapping(code).None?
    ensures AndroidQueries.ExerciseTypeName(code) == "OTHER"
    ensures IosCatalog.WorkoutTypeName(code) == "other"
  {
  }

  /**
   * Without `includeHeartRate` and `includeRoute`, an Android workout object
   * has neither `heartRate` nor `route`, while an iOS workout dictionary has
   * both, empty.
   */
  lemma SampleFieldsPresence(s: AndroidQueries.ExerciseSession, androidFlags: AndroidQueries.WorkoutFlags,
                             hc: AndroidQueries.HealthConnect,
                             w: IosPlugin.HKWorkout, iosFlags: IosPlugin.WorkoutFlags, store: IosPlugin.HealthStore)
    requires !androidFlags.includeHeartRate && !androidFlags.includeRoute
    requires !iosFlags.includeHeartRate && !iosFlags.includeRoute
    requires AndroidQueries.WorkoutObject(s, androidFlags, hc).Ok?
    ensures "heartRate" !in AndroidQueries.WorkoutObject(s, androidFlags, hc).value
    ensures "route" !in AndroidQueries.WorkoutObject(s, androidFlags, hc).value
    ensures IosPlugin.WorkoutSubResults(w, iosFlags, store).Some?
    ensures var d := IosPlugin.WorkoutDict(w, IosPlugin.WorkoutSubResults(w, iosFlags, store).value);
            "heartRate" in d && d["heartRate"] == JArr([]) && "route" in d && d["route"] == JArr([])
  {
    AndroidQueries.WorkoutObjectShape(s, androidFlags, hc);
    IosPlugin.WorkoutRecordSamples(w, iosFlags, store);
  }
}
