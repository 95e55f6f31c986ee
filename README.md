# capacitor-health, modelled in Dafny

This project models the native core of the `capacitor-health` plugin. The
plugin gives a web app read access to Google Health Connect on Android and
Apple HealthKit on iOS. Two native files make up the core:

- the Android plugin `HealthPlugin.kt`. The model covers how it turns
  permission names into Health Connect permission strings, how it tests
  grants by suffix, the pending permission request and its callback, the
  aggregated query, and how it assembles workout objects (duration, metrics,
  heart rate, route, exercise-type names);
- the iOS plugin `HealthPlugin.swift`. The model covers its permission,
  data-type, bucket and workout-type tables, the result of a permission
  request, the filtering and unit choice of aggregated buckets, the step
  sub-aggregate, the heart-rate, route and location queries, and the
  dictionaries and error map of the workout query.

Everything the plugins obtain from the platform is an input to the model:
- granted-permission sets;
- aggregation results;
- record pages;
- HealthKit query results;
- the outcome of launching the permission screen;
- the ISO-8601 date parser.

Provider answers are function-valued parameters or fields of a provider
datatype (`HealthConnect`, `HealthStore`). Instants are integer epoch
seconds. A JavaScript object is a `map<string, Json>`. On Android,
`JSObject.put(key, null)` removes the key, so a null value is modelled as
an absent key (`PutNullable`).

Modules:
- `Wrappers`: `Option`, `Result`, and `MapUntilError`, a loop that stops at
  the first failure.
- `JsonValues`: the data passed back to JavaScript.
- `AndroidPermissions`: `CapHealthPermission`, `permissionMapping`, the
  suffix test and `grantedPermissionResult`.
- `AndroidQueries`: aggregated and workout queries.
- `AndroidPlugin`: the plugin object with `available` and the pending
  request.
- `IosCatalog`: the iOS switch tables.
- `IosPlugin`: the iOS plugin methods.
- `Platforms`: lemmas that state where the two platforms answer the same
  call differently.

Where the code and the plugin's design description disagree, the model
follows the code:
- iOS rejects with `Authorization failed: …` when authorization fails with
  an error, instead of answering every permission `false`.
- iOS echoes unknown permission strings in its result, while Android drops
  them.
- The Android permission callback does not clear the pending request, so a
  second callback resolves the same call again.
- The Android workout query reads one page of 1000 sessions. Its heart-rate
  read also reads only the first page of records, with the default page
  size, and the `heartRateRecords` input stands for that page.
- On Android, a failing heart-rate read aborts the whole workout query
  rather than one field.
- iOS always sets `heartRate` and `route`, empty when not asked for.
- iOS gives `steps` the value `0.0` when there is no sum, instead of leaving
  it null.
- Android accepts only the `day` bucket; iOS accepts `hour`, `day` and
  `week`.
- A route whose location handler never reports `done` leaves the iOS
  workout query unsettled (`Unsettled`).
- iOS `checkHealthPermissions` only rejects.

## Model

| member | source | states |
|---|---|---|
| `JsonValues.PutNullable` | android/src/main/java/com/fit_up/health/capacitor/HealthPlugin.kt:386 | putting a nullable value leaves the key present exactly when there is a value, as `JSObject.put(key, null)` removes the key, and leaves every other key untouched |
| `AndroidPermissions.From` | android/src/main/java/com/fit_up/health/capacitor/HealthPlugin.kt:44-50 | a string parses to the permission with exactly that name, and parses to nothing when no permission has that name |
| `AndroidPermissions.FromName` | android/src/main/java/com/fit_up/health/capacitor/HealthPlugin.kt:40-52 | parsing a permission's name gives back the permission, and no two permissions share a name |
| `AndroidPermissions.ParsePermissions` | android/src/main/java/com/fit_up/health/capacitor/HealthPlugin.kt:149-150 | the parsed set holds exactly the permissions whose names occur in the request, so unknown strings are dropped |
| `AndroidPermissions.PermissionMappingAt` | android/src/main/java/com/fit_up/health/capacitor/HealthPlugin.kt:130-137 | every permission maps to `android.permission.health.` followed by its native suffix |
| `AndroidPermissions.PermissionMappingTotalAndInjective` | android/src/main/java/com/fit_up/health/capacitor/HealthPlugin.kt:130-137 | the mapping covers all six permissions, and no two permissions map to the same string |
| `AndroidPermissions.HealthConnectPermissions` | android/src/main/java/com/fit_up/health/capacitor/HealthPlugin.kt:196-197 | the launched set holds the mapped string of every parsed permission, and nothing else |
| `AndroidPermissions.HealthConnectPermissionsSize` | android/src/main/java/com/fit_up/health/capacitor/HealthPlugin.kt:196-197 | the permission screen is asked for exactly as many strings as permissions were recognised |
| `AndroidPermissions.InjectiveImageSize` | android/src/main/java/com/fit_up/health/capacitor/HealthPlugin.kt:197 | the image of a key set under a map that is injective on it has the key set's size |
| `AndroidPermissions.LastIndexOf` | android/src/main/java/com/fit_up/health/capacitor/HealthPlugin.kt:168 | the result is -1 or an index holding the character, and no later index holds it |
| `AndroidPermissions.SubstringAfterLast` | android/src/main/java/com/fit_up/health/capacitor/HealthPlugin.kt:168 | the result is a suffix without the delimiter; it is the whole string when the delimiter is absent, and otherwise follows the delimiter's last occurrence |
| `AndroidPermissions.LastIndexOfBeforeTail` | android/src/main/java/com/fit_up/health/capacitor/HealthPlugin.kt:168 | in `prefix + d + tail`, where `tail` has no `d`, the last `d` is at position `|prefix|` |
| `AndroidPermissions.SubstringAfterLastOfJoined` | android/src/main/java/com/fit_up/health/capacitor/HealthPlugin.kt:168 | stripping `prefix + d + tail` gives back `tail` when `tail` has no `d` |
| `AndroidPermissions.StrippedGranted` | android/src/main/java/com/fit_up/health/capacitor/HealthPlugin.kt:168 | the stripped set holds exactly the suffixes of the granted strings |
| `AndroidPermissions.HasPermission` | android/src/main/java/com/fit_up/health/capacitor/HealthPlugin.kt:348-351 | none: the definition of the suffix test on a granted set; its meaning is stated by `HasPermissionIffSameSuffix` and `HasPermissionBySuffix` |
| `AndroidPermissions.ExactGrantPasses` | android/src/main/java/com/fit_up/health/capacitor/HealthPlugin.kt:173 | granting the exact mapped string grants the permission |
| `AndroidPermissions.HasPermissionIffSameSuffix` | android/src/main/java/com/fit_up/health/capacitor/HealthPlugin.kt:168-173 | a permission counts as granted exactly when some granted string has the same suffix as its mapped string |
| `AndroidPermissions.MappedSuffix` | android/src/main/java/com/fit_up/health/capacitor/HealthPlugin.kt:130-137 | each mapped string is the health prefix, a dot and a dot-free native suffix, and stripping it gives that suffix |
| `AndroidPermissions.HasPermissionBySuffix` | android/src/main/java/com/fit_up/health/capacitor/HealthPlugin.kt:348-351 | `hasPermission` holds exactly when the permission's native suffix is among the stripped grants |
| `AndroidPermissions.BareSuffixGrants` | android/src/main/java/com/fit_up/health/capacitor/HealthPlugin.kt:168-173 | a bare suffix without any prefix is enough to pass the test |
| `AndroidPermissions.ForeignPrefixGrants` | android/src/main/java/com/fit_up/health/capacitor/HealthPlugin.kt:168-173 | a string with any other prefix and the same suffix also passes the test |
| `AndroidPermissions.RouteGrantIsNotWorkoutGrant` | android/src/main/java/com/fit_up/health/capacitor/HealthPlugin.kt:131-132 | the grant `READ_EXERCISE_ROUTE` does not make `READ_WORKOUTS` granted, even though the two strings share a prefix |
| `AndroidPermissions.ResultKeys` | android/src/main/java/com/fit_up/health/capacitor/HealthPlugin.kt:169-172 | a permission's name is a key exactly when the permission was requested |
| `AndroidPermissions.ResultKeysAreParsedNames` | android/src/main/java/com/fit_up/health/capacitor/HealthPlugin.kt:166-181 | the result keys are exactly the strings that parse to a requested permission |
| `AndroidPermissions.GrantedPermissionResult` | android/src/main/java/com/fit_up/health/capacitor/HealthPlugin.kt:166-181 | the loop produces one entry per requested permission, under its name, holding whether the suffix test passes |
| `AndroidPermissions.ResultKeysAdd` | android/src/main/java/com/fit_up/health/capacitor/HealthPlugin.kt:169-175 | one more permission adds exactly its name to the keys |
| `AndroidPlugin.PermissionsResult` | android/src/main/java/com/fit_up/health/capacitor/HealthPlugin.kt:166-181 | the resolved object is the `permissions` map of the grant loop |
| `AndroidPlugin.HealthPlugin.constructor` | android/src/main/java/com/fit_up/health/capacitor/HealthPlugin.kt:183-185 | a new plugin is unavailable and has no pending request |
| `AndroidPlugin.HealthPlugin.IsHealthAvailable` | android/src/main/java/com/fit_up/health/capacitor/HealthPlugin.kt:110-127 | `available` becomes true once a client is created and stays true; the answer reports it; the pending request is untouched |
| `AndroidPlugin.HealthPlugin.CheckHealthPermissions` | android/src/main/java/com/fit_up/health/capacitor/HealthPlugin.kt:140-164 | rejects without a list, rejects with the read failure's message, and otherwise resolves with the grant result of the recognised names |
| `AndroidPlugin.HealthPlugin.RequestHealthPermissions` | android/src/main/java/com/fit_up/health/capacitor/HealthPlugin.kt:188-209 | rejects without a list and keeps the pending request; otherwise launches the mapped strings; a failed launch rejects and clears the pending request, a successful one records the request and leaves the call open |
| `AndroidPlugin.HealthPlugin.OnPermissionsResult` | android/src/main/java/com/fit_up/health/capacitor/HealthPlugin.kt:99-105 | with a pending request, resolves that request's call with its grant result; without one, resolves nothing |
| `AndroidQueries.GetMetricAndMapper` | android/src/main/java/com/fit_up/health/capacitor/HealthPlugin.kt:232-244 | exactly `steps`, `calories` and `distance` are supported, each with its permission and a name equal to the data type; any other data type fails with `Unsupported dataType: …` |
| `AndroidQueries.GetValue` | android/src/main/java/com/fit_up/health/capacitor/HealthPlugin.kt:303-312 | the mapped value is present exactly when the aggregate has the metric |
| `AndroidQueries.ZeroIsNotMissing` | android/src/main/java/com/fit_up/health/capacitor/HealthPlugin.kt:234 | a zero step count maps to `0.0`, while a missing count maps to null |
| `AndroidQueries.BucketPeriod` | android/src/main/java/com/fit_up/health/capacitor/HealthPlugin.kt:264-267 | only `day` is accepted, as one day; any other bucket fails with `Unsupported bucket: …` |
| `AndroidQueries.SampleToJs` | android/src/main/java/com/fit_up/health/capacitor/HealthPlugin.kt:314-324 | the object has the start and end dates, and `value` exactly when there is one |
| `AndroidQueries.QueryAggregatedMetric` | android/src/main/java/com/fit_up/health/capacitor/HealthPlugin.kt:326-346 | a failing granted-permission read fails the query; without the permission the list is empty; a read failure propagates; otherwise there is one sample per group, in order, with the group's times and mapped value |
| `AndroidQueries.QueryAggregated` | android/src/main/java/com/fit_up/health/capacitor/HealthPlugin.kt:246-290 | failures come, in order, from a missing parameter, unparsable dates, an unsupported data type and a bucket other than `day`; a failing granted-permission read or aggregation read becomes `Error querying aggregated data: …`; without the permission the list is empty; otherwise there is one sample per group |
| `AndroidQueries.AggregatedArray` | android/src/main/java/com/fit_up/health/capacitor/HealthPlugin.kt:275-276 | none: the definition of the `aggregatedData` array; stated by `AggregatedArrayAt` |
| `AndroidQueries.AggregatedArrayAt` | android/src/main/java/com/fit_up/health/capacitor/HealthPlugin.kt:276 | the array holds one `toJs` object per sample, at the sample's position |
| `AndroidQueries.ResolveAggregated` | android/src/main/java/com/fit_up/health/capacitor/HealthPlugin.kt:275-280 | the resolved object has exactly the key `aggregatedData`, holding the `toJs` object of every sample in order |
| `AndroidQueries.SegmentsTotalAppend` | android/src/main/java/com/fit_up/health/capacitor/HealthPlugin.kt:390-391 | the summed segment durations add up over concatenation |
| `AndroidQueries.SegmentsTotalBounded` | android/src/main/java/com/fit_up/health/capacitor/HealthPlugin.kt:390-391 | ordered, non-overlapping segments inside a range sum to between 0 and the range's length |
| `AndroidQueries.DurationAtMostSpan` | android/src/main/java/com/fit_up/health/capacitor/HealthPlugin.kt:387-392 | a session's duration never exceeds its span, and equals the span when there are no segments |
| `AndroidQueries.PausedSessionDuration` | android/src/main/java/com/fit_up/health/capacitor/HealthPlugin.kt:387-392 | with segments, the pause between them does not count toward the duration |
| `AndroidQueries.SegmentsTotal` | android/src/main/java/com/fit_up/health/capacitor/HealthPlugin.kt:390-391 | none: the definition of the summed segment durations; stated by `SegmentsTotalAppend` and `SegmentsTotalBounded` |
| `AndroidQueries.WorkoutDuration` | android/src/main/java/com/fit_up/health/capacitor/HealthPlugin.kt:387-392 | none: the definition of the duration (the span without segments, else the segments' total); stated by `DurationAtMostSpan` |
| `AndroidQueries.ExerciseTypeEntry` | android/src/main/java/com/fit_up/health/capacitor/HealthPlugin.kt:483-545 | none: the definition of the exercise-type table |
| `AndroidQueries.ExerciseTypeName` | android/src/main/java/com/fit_up/health/capacitor/HealthPlugin.kt:385 | none: the definition of the lookup with default `OTHER`; stated by `ExerciseTypeOther` |
| `AndroidQueries.ExerciseTypeOther` | android/src/main/java/com/fit_up/health/capacitor/HealthPlugin.kt:385 | the name is `OTHER` exactly for code 0 or an unlisted code; otherwise it is the table entry |
| `AndroidQueries.FlatSamplesAppend` | android/src/main/java/com/fit_up/health/capacitor/HealthPlugin.kt:458 | flattening distributes over concatenated record lists |
| `AndroidQueries.FlatSamplesMembership` | android/src/main/java/com/fit_up/health/capacitor/HealthPlugin.kt:458 | a sample is flattened exactly when some record holds it |
| `AndroidQueries.HeartRateArrayAppend` | android/src/main/java/com/fit_up/health/capacitor/HealthPlugin.kt:459-464 | the heart-rate array distributes over concatenation |
| `AndroidQueries.HeartRateArrayAt` | android/src/main/java/com/fit_up/health/capacitor/HealthPlugin.kt:459-464 | the array has one object per sample, at the sample's own position |
| `AndroidQueries.HeartRateObject` | android/src/main/java/com/fit_up/health/capacitor/HealthPlugin.kt:460-463 | none: the definition of one `{timestamp, bpm}` object; stated by `HeartRateObjectInjective` |
| `AndroidQueries.QueryHeartRateForWorkout` | android/src/main/java/com/fit_up/health/capacitor/HealthPlugin.kt:452-466 | a read failure propagates; otherwise the loop emits the heart-rate array of all the records' samples |
| `AndroidQueries.HeartRateObjectInjective` | android/src/main/java/com/fit_up/health/capacitor/HealthPlugin.kt:460-462 | different samples give different heart-rate objects |
| `AndroidQueries.HeartRateArrayOfRecords` | android/src/main/java/com/fit_up/health/capacitor/HealthPlugin.kt:452-466 | the heart-rate array has one object per flattened sample, and holds a sample's object exactly when some record holds the sample |
| `AndroidQueries.RouteObject` | android/src/main/java/com/fit_up/health/capacitor/HealthPlugin.kt:472-476 | a location object has its timestamp, latitude and longitude, and `alt` exactly when there is an altitude |
| `AndroidQueries.RouteArrayAppend` | android/src/main/java/com/fit_up/health/capacitor/HealthPlugin.kt:471-478 | the route array distributes over concatenation |
| `AndroidQueries.RouteArrayAt` | android/src/main/java/com/fit_up/health/capacitor/HealthPlugin.kt:471-478 | the route array has one object per location, in order |
| `AndroidQueries.QueryRouteForWorkout` | android/src/main/java/com/fit_up/health/capacitor/HealthPlugin.kt:468-480 | the loop builds the route array of the locations |
| `AndroidQueries.AddWorkoutMetric` | android/src/main/java/com/fit_up/health/capacitor/HealthPlugin.kt:428-449 | a failing granted-permission read (outside the `try`) fails the call; otherwise, with the permission and an aggregate that did not throw, the mapped value is put under the metric's name, or left out when it is null; otherwise the object is unchanged; no other key changes |
| `AndroidQueries.WorkoutKeysDistinct` | android/src/main/java/com/fit_up/health/capacitor/HealthPlugin.kt:381-413 | the header keys, metric keys and sample keys of a workout object do not overlap |
| `AndroidQueries.WorkoutHeader` | android/src/main/java/com/fit_up/health/capacitor/HealthPlugin.kt:381-393 | every workout object has its id, dates, exercise-type name, duration and (when the session has one) title |
| `AndroidQueries.AddWorkoutMetrics` | android/src/main/java/com/fit_up/health/capacitor/HealthPlugin.kt:395-400 | a failing granted-permission read fails the three calls; otherwise the header is kept, `steps` appears only when asked for, and `steps`, `calories` and `distance` each follow their permission, aggregate and value |
| `AndroidQueries.PutKeepsHeaderAndMetrics` | android/src/main/java/com/fit_up/health/capacitor/HealthPlugin.kt:402-413 | putting `heartRate` or `route` keeps the header and metric fields |
| `AndroidQueries.WorkoutObjectShape` | android/src/main/java/com/fit_up/health/capacitor/HealthPlugin.kt:380-416 | a session fails exactly when the granted-permission read fails or heart rate is wanted and its read fails, with that read's error; otherwise it yields the full workout object: header, metrics, `heartRate` exactly when asked for and permitted, `route` exactly when asked for and present |
| `AndroidQueries.WorkoutObjectSucceeds` | android/src/main/java/com/fit_up/health/capacitor/HealthPlugin.kt:380-416 | a session whose granted-permission read and wanted heart-rate read succeed yields a workout object with the header, the metrics and the requested samples |
| `AndroidQueries.SessionFails` | android/src/main/java/com/fit_up/health/capacitor/HealthPlugin.kt:402-434 | none: the definition of a failing session (granted-permission read, or a wanted heart-rate read) |
| `AndroidQueries.WorkoutObject` | android/src/main/java/com/fit_up/health/capacitor/HealthPlugin.kt:381-415 | none: the definition of the loop body for one session; stated by `WorkoutObjectShape` |
| `AndroidQueries.BuildWorkoutObject` | android/src/main/java/com/fit_up/health/capacitor/HealthPlugin.kt:381-415 | the loop body computes the session's workout object |
| `AndroidQueries.WorkoutObjectsShape` | android/src/main/java/com/fit_up/health/capacitor/HealthPlugin.kt:380-416 | the objects exist exactly when no session fails by its granted-permission read or heart-rate read, and then there is one workout object per session, in order |
| `AndroidQueries.WorkoutObjectsFailure` | android/src/main/java/com/fit_up/health/capacitor/HealthPlugin.kt:380-424 | a failed loop fails with the error of its first failing session, and with the granted-permission read's error when that read fails |
| `AndroidQueries.FirstPage` | android/src/main/java/com/fit_up/health/capacitor/HealthPlugin.kt:371 | only a prefix of at most 1000 sessions is processed |
| `AndroidQueries.QueryWorkouts` | android/src/main/java/com/fit_up/health/capacitor/HealthPlugin.kt:354-426 | rejects missing dates; an unparsable date escapes as an exception; a failing session read, granted-permission read or heart-rate read rejects with `Error querying workouts: …`; otherwise it returns the workout objects of the first page |
| `AndroidQueries.CollectWorkouts` | android/src/main/java/com/fit_up/health/capacitor/HealthPlugin.kt:380-416 | the loop yields the workout objects of the sessions, or the first failure |
| `IosCatalog.PermissionOfType` | ios/Sources/HealthPluginPlugin/HealthPlugin.swift:70-98 | every HealthKit type is requested through one of the nine permission names |
| `IosCatalog.PermissionToHKObjectType` | ios/Sources/HealthPluginPlugin/HealthPlugin.swift:70-98 | every type a name asks for belongs to that name |
| `IosCatalog.PermissionTypeCount` | ios/Sources/HealthPluginPlugin/HealthPlugin.swift:70-98 | `READ_DISTANCE` asks for the four distance types, every other known name for one type, and an unknown string for none |
| `IosCatalog.PermissionTypesInverse` | ios/Sources/HealthPluginPlugin/HealthPlugin.swift:70-98 | a type is in a name's list exactly when that name requests the type |
| `IosCatalog.RequestedTypesMembership` | ios/Sources/HealthPluginPlugin/HealthPlugin.swift:39 | the requested set holds a type exactly when the permission list contains the name that requests it |
| `IosCatalog.UnknownPermissionsRequestNothing` | ios/Sources/HealthPluginPlugin/HealthPlugin.swift:39 | a list of only unknown strings asks for no type at all |
| `IosCatalog.AggregateTypeToHKQuantityType` | ios/Sources/HealthPluginPlugin/HealthPlugin.swift:100-115 | exactly the five aggregate data types resolve to a quantity type, and that type's data type is the one asked for |
| `IosCatalog.AggregateTypeRoundTrip` | ios/Sources/HealthPluginPlugin/HealthPlugin.swift:100-115 | a data type maps to a type exactly when the type maps back to that data type |
| `IosCatalog.AggregatedTypesAreRequestable` | ios/Sources/HealthPluginPlugin/HealthPlugin.swift:100-115 | every aggregate quantity type is requested through its permission name |
| `IosCatalog.CalculateInterval` | ios/Sources/HealthPluginPlugin/HealthPlugin.swift:213-224 | exactly `hour`, `day` and `week` are accepted, and each interval is named by its bucket |
| `IosCatalog.CalculateIntervalRoundTrip` | ios/Sources/HealthPluginPlugin/HealthPlugin.swift:213-224 | a bucket gives an interval exactly when that interval is one unit of the bucket's own name |
| `IosCatalog.WorkoutTypeMappingDomain` | ios/Sources/HealthPluginPlugin/HealthPlugin.swift:418-503 | the table lists codes 1 to 84 except 81, plus 3000 |
| `IosCatalog.WorkoutTypeMapping` | ios/Sources/HealthPluginPlugin/HealthPlugin.swift:418-503 | none: the definition of the workout-type table; stated by `WorkoutTypeMappingDomain` |
| `IosCatalog.WorkoutTypeName` | ios/Sources/HealthPluginPlugin/HealthPlugin.swift:267 | none: the definition of the lookup with default `other`; stated by `WorkoutTypeOther` |
| `IosCatalog.WorkoutTypeOther` | ios/Sources/HealthPluginPlugin/HealthPlugin.swift:267 | the name is `other` exactly for code 3000 or an unlisted code; otherwise it is the table entry |
| `IosPlugin.FillResult` | ios/Sources/HealthPluginPlugin/HealthPlugin.swift:44-45 | the result has one key per distinct requested string, and every value is the assumed answer |
| `IosPlugin.AssumedGrants` | ios/Sources/HealthPluginPlugin/HealthPlugin.swift:42-53 | none: the definition of the resolved `permissions` object; stated by `AssumedGrantsEchoRequest` |
| `IosPlugin.RequestHealthPermissions` | ios/Sources/HealthPluginPlugin/HealthPlugin.swift:33-56 | rejects a list that is not strings; asks once for the union of the types; on success every string is granted; failure with an error rejects with `Authorization failed: …`; failure without an error denies every string |
| `IosPlugin.AssumedGrantsEchoRequest` | ios/Sources/HealthPluginPlugin/HealthPlugin.swift:44-53 | the answer has exactly the requested strings as keys, each with the assumed value, including strings that request no type |
| `IosPlugin.SampleValueIsSum` | ios/Sources/HealthPluginPlugin/HealthPlugin.swift:161-172 | for every accepted data type the unit check passes, so the `-1.0` sentinel never appears |
| `IosPlugin.SampleDict` | ios/Sources/HealthPluginPlugin/HealthPlugin.swift:157-178 | none: the definition of one aggregated sample; stated by `AggregatedSamplesAreKeptBuckets` |
| `IosPlugin.WithSumMembership` | ios/Sources/HealthPluginPlugin/HealthPlugin.swift:157 | a bucket is kept exactly when it has a sum |
| `IosPlugin.WithSumAppend` | ios/Sources/HealthPluginPlugin/HealthPlugin.swift:156-157 | the filter distributes over concatenation |
| `IosPlugin.AggregatedSamplesAreKeptBuckets` | ios/Sources/HealthPluginPlugin/HealthPlugin.swift:156-180 | there is one sample per kept bucket, in order, with millisecond dates and the bucket's sum |
| `IosPlugin.EnumerateStatistics` | ios/Sources/HealthPluginPlugin/HealthPlugin.swift:154-180 | the enumeration loop builds the samples of the buckets with a sum |
| `IosPlugin.QueryAggregated` | ios/Sources/HealthPluginPlugin/HealthPlugin.swift:117-186 | rejects, in order, invalid parameters, an unknown data type and an unknown bucket; a handler error rejects with `Error fetching aggregated data: …`; otherwise resolves with the samples, none when there is no collection |
| `IosPlugin.SubAggregate` | ios/Sources/HealthPluginPlugin/HealthPlugin.swift:188-211 | nothing without a quantity type; `0.0` without a result or a sum; otherwise the sum |
| `IosPlugin.HeartRateDictsAt` | ios/Sources/HealthPluginPlugin/HealthPlugin.swift:342-351 | one dictionary per sample, at the sample's position |
| `IosPlugin.QueryHeartRate` | ios/Sources/HealthPluginPlugin/HealthPlugin.swift:330-357 | on an error or without samples the list is empty and carries the error; otherwise there is one dictionary per sample |
| `IosPlugin.LocationDictsAppend` | ios/Sources/HealthPluginPlugin/HealthPlugin.swift:400-408 | location dictionaries distribute over concatenation |
| `IosPlugin.LocationDict` | ios/Sources/HealthPluginPlugin/HealthPlugin.swift:401-406 | none: the definition of one `{timestamp, lat, lng, alt}` dictionary |
| `IosPlugin.DeliveredLocations` | ios/Sources/HealthPluginPlugin/HealthPlugin.swift:394-412 | none: the definition of the location handler's calls; stated by `CompleteDeliveryLocations` and `FailedDeliveryLocations` |
| `IosPlugin.CompleteDeliveryLocations` | ios/Sources/HealthPluginPlugin/HealthPlugin.swift:394-412 | successful handler calls ending in one `done` complete with the dictionaries of all their locations, in order |
| `IosPlugin.FailedDeliveryLocations` | ios/Sources/HealthPluginPlugin/HealthPlugin.swift:395-397 | a failing handler call before any `done` completes with nothing |
| `IosPlugin.QueryLocations` | ios/Sources/HealthPluginPlugin/HealthPlugin.swift:391-416 | the handler's calls, processed in order, give the delivered locations, or none when no call completes |
| `IosPlugin.RoutesLocations` | ios/Sources/HealthPluginPlugin/HealthPlugin.swift:374-384 | none: the definition of the route loop; stated by `RoutesLocationsComplete`, `RoutesLocationsSingle` and `RoutesLocationsAppend` |
| `IosPlugin.RoutesLocationsComplete` | ios/Sources/HealthPluginPlugin/HealthPlugin.swift:374-384 | the routes' locations exist exactly when the location handler of every route completes |
| `IosPlugin.RoutesLocationsSingle` | ios/Sources/HealthPluginPlugin/HealthPlugin.swift:376-378 | one route contributes exactly what its location handler delivers |
| `IosPlugin.RoutesLocationsAppend` | ios/Sources/HealthPluginPlugin/HealthPlugin.swift:374-384 | the locations of consecutive routes are concatenated in route order, and are missing when either part never completes |
| `IosPlugin.QueryRoute` | ios/Sources/HealthPluginPlugin/HealthPlugin.swift:360-388 | on an error or without routes the list is empty with the error; otherwise the loop gives the routes' locations, which by the three route lemmas are every route's delivered locations joined in route order (the code joins them in completion order), or none when some route never completes |
| `IosPlugin.CollectRunShape` | ios/Sources/HealthPluginPlugin/HealthPlugin.swift:263-319 | the run completes exactly when every workout completes, and then has one dictionary per workout, in order |
| `IosPlugin.WorkoutSubResults` | ios/Sources/HealthPluginPlugin/HealthPlugin.swift:276-311 | none: the definition of one workout's sub-queries under the flags; stated by `WorkoutRecordSteps` and `WorkoutRecordSamples` |
| `IosPlugin.WorkoutDict` | ios/Sources/HealthPluginPlugin/HealthPlugin.swift:264-317 | none: the definition of a completed workout dictionary; stated by `WorkoutRecordFields`, `WorkoutRecordKeys` and `WorkoutRecordSamples` |
| `IosPlugin.WorkoutRecordFields` | ios/Sources/HealthPluginPlugin/HealthPlugin.swift:264-274 | a workout dictionary has the nine base keys, its type name or `other`, and calories and distance defaulting to `0` |
| `IosPlugin.WorkoutRecordSteps` | ios/Sources/HealthPluginPlugin/HealthPlugin.swift:303-311 | when asked for, `steps` is the workout's step sum, or `0.0` without one |
| `IosPlugin.WorkoutRecordKeys` | ios/Sources/HealthPluginPlugin/HealthPlugin.swift:264-317 | the keys are the base keys, `heartRate` and `route`, plus `steps` exactly when asked for |
| `IosPlugin.WorkoutRecordSamples` | ios/Sources/HealthPluginPlugin/HealthPlugin.swift:276-315 | `heartRate` and `route` hold the fetched dictionaries when asked for and fetched without failure, and are empty otherwise; an error is recorded only for a query that was asked for |
| `IosPlugin.ErrorsAfterAt` | ios/Sources/HealthPluginPlugin/HealthPlugin.swift:283-285 | a workout's error overwrites its key and leaves every other key as it was |
| `IosPlugin.CollectRunErrors` | ios/Sources/HealthPluginPlugin/HealthPlugin.swift:259-301 | the error map has only `heart-rate` and `route`, each holding the last error reported under it |
| `IosPlugin.LastErrorIsLast` | ios/Sources/HealthPluginPlugin/HealthPlugin.swift:283-297 | a last error exists exactly when some workout reported one, and no later workout reported one |
| `IosPlugin.CollectedWorkoutsProperties` | ios/Sources/HealthPluginPlugin/HealthPlugin.swift:258-323 | the workout run completes exactly when every workout's queries do; it lists each workout's dictionary in order, and the error map holds the last error under `heart-rate` and `route` |
| `IosPlugin.ProcessWorkout` | ios/Sources/HealthPluginPlugin/HealthPlugin.swift:276-311 | one workout's sub-queries give its heart-rate, route and step results, or none when the route never completes |
| `IosPlugin.QueryWorkouts` | ios/Sources/HealthPluginPlugin/HealthPlugin.swift:232-327 | rejects missing or unparsable options, and a query error with `Error querying workouts: …`; resolves with no workouts when the samples are not workouts; otherwise resolves with the dictionaries and the error map, or stays unsettled when a route never completes |
| `Platforms.CaloriesNamesDiffer` | ios/Sources/HealthPluginPlugin/HealthPlugin.swift:74-75 | Android uses `READ_CALORIES` and `calories`, iOS uses `READ_ACTIVE_CALORIES` and `active-calories`, and neither accepts the other's names |
| `Platforms.UnknownPermissionStrings` | ios/Sources/HealthPluginPlugin/HealthPlugin.swift:44-53 | a requested string that names no Android permission is missing from Android's result, but present in iOS's result |
| `Platforms.BucketsDiffer` | ios/Sources/HealthPluginPlugin/HealthPlugin.swift:213-224 | iOS accepts every bucket Android accepts, with the same one-day interval, and only iOS accepts `hour` and `week` |
| `Platforms.UnlistedWorkoutType` | ios/Sources/HealthPluginPlugin/HealthPlugin.swift:267 | a code neither table lists is `OTHER` on Android and `other` on iOS |
| `Platforms.SampleFieldsPresence` | ios/Sources/HealthPluginPlugin/HealthPlugin.swift:313-315 | with heart rate and route not asked for, an Android workout has neither field, while an iOS workout has both, empty |

## Left out

- I/O, the Health Connect and HealthKit clients, and the Android activity
  launcher. Their answers are inputs to the model, and every provider call
  is modelled as answering once.
- Repeated granted-permission reads. Each Android `hasPermission` call reads
  the granted set again. The model gives every read within one query the
  same answer, a granted set or a read failure.
- Concurrency. The Android coroutines and the iOS dispatch groups and
  handlers are modelled as running in order. All workouts share one
  dispatch group, and their `notify` blocks run on the main queue in loop
  order, so the iOS `workoutList` follows provider order in the code as in
  the model. Two things depend on completion order in the code, and the
  model fixes an order instead:
  - the error map: the model keeps, for each key, the error of the last
    workout in provider order that reports it, while the code keeps the one
    whose handler finished last;
  - a workout's `route` array: each route's location query appends from its
    own handler, so the code joins the routes in the order their queries
    complete, with unsynchronised appends, while `RoutesLocations` and
    `QueryRoute` join them in route order.
- IosPlugin.QueryRoute: promises the routes' locations in route order. The
  code's order is the order in which the route queries complete, which the
  model does not represent.
- Unit conversions and floating point. Sums and measurements are `real`
  values that already carry the unit the code asks for (kilocalories,
  metres, counts per minute). The iOS dates are epoch seconds times 1000
  as reals.
- ISO-8601 parsing, time zones and `LocalDateTime` rendering. The parser is
  a parameter and dates are instants.
- `openHealthConnectSettings`, `showHealthConnectInPlayStore` and
  `openAppleHealthSettings`. These only start activities or open URLs.
- The iOS `isHealthAvailable`, which only returns the platform's answer.
  The iOS `checkHealthPermissions` always rejects with `not implemented`.
- HealthKit's `compactMap`, which drops a missing quantity type. Every
  type identifier is modelled as existing.
- Handler calls of `queryLocations` after the first call that completes it.
  Their effect on later completions is not modelled.
- `AndroidQueries.RouteObject`: `alt` holds the altitude as a length value
  (`JLength`). The serialised form of the `Length` object is not modelled.
- Logging (`Log.e`) on Android.
- The rationale activity, the package manifest and the TypeScript
  definitions. These are not part of this model.
