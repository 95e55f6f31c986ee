/**
 * The Android permission catalog: the `CapHealthPermission` enum, its
 * parsing from caller strings, its Health Connect permission strings and the
 * grant test that compares the text after the last '.'.
 */
module AndroidPermissions {
  import opened Wrappers

  /** `CapHealthPermission`, in declaration order. */
  datatype CapHealthPermission =
    | ReadSteps
    | ReadWorkouts
    | ReadHeartRate
    | ReadRoute
    | ReadCalories
    | ReadDistance

  const AllPermissions: set<CapHealthPermission> :=
    {ReadSteps, ReadWorkouts, ReadHeartRate, ReadRoute, ReadCalories, ReadDistance}

  /** The enum constant's `name`. */
  function Name(p: CapHealthPermission): string
  {
    match p
    case ReadSteps => "READ_STEPS"
    case ReadWorkouts => "READ_WORKOUTS"
    case ReadHeartRate => "READ_HEART_RATE"
    case ReadRoute => "READ_ROUTE"
    case ReadCalories => "READ_CALORIES"
    case ReadDistance => "READ_DISTANCE"
  }

  /** `CapHealthPermission.from`: `valueOf`, with the exception turned into null. */
  function From(s: string): (r: Option<CapHealthPermission>)
    ensures r.Some? ==> Name(r.value) == s
    ensures r.None? ==> forall p :: Name(p) != s
  {
    if s == "READ_STEPS" then Some(ReadSteps)
    else if s == "READ_WORKOUTS" then Some(ReadWorkouts)
    else if s == "READ_HEART_RATE" then Some(ReadHeartRate)
    else if s == "READ_ROUTE" then Some(ReadRoute)
    else if s == "READ_CALORIES" then Some(ReadCalories)
    else if s == "READ_DISTANCE" then Some(ReadDistance)
    else None
  }

  /** Names identify constants, so parsing a name gives the constant back. */
  lemma FromName(p: CapHealthPermission)
    ensures From(Name(p)) == Some(p)
    ensures forall q :: Name(q) == Name(p) ==> q == p
  {
  }

  /**
   * `toList().mapNotNull { from(it) }.toSet()`: the parsed permissions are
   * exactly those whose name occurs among the caller's strings; unknown
   * strings are dropped and duplicates collapse.
   */
  function ParsePermissions(requested: seq<string>): (ps: set<CapHealthPermission>)
    ensures forall p :: p in ps <==> Name(p) in requested
  {
    var ps := set i | 0 <= i < |requested| && From(requested[i]).Some? :: From(requested[i]).value;
    assert forall p :: Name(p) in requested ==> p in ps by {
      forall p | Name(p) in requested
        ensures p in ps
      {
        var i :| 0 <= i < |requested| && requested[i] == Name(p);
        FromName(p);
      }
    }
    ps
  }

  /** The Health Connect prefix the plugin's permission strings share. */
  const HealthPrefix := "android.permission.health"

  /** The Health Connect permission string `android.permission.health.<name>`. */
  function HealthConnectPermission(name: string): string
  {
    HealthPrefix + "." + name
  }

  /** `permissionMapping`: each constant's Health Connect permission string. */
  const PermissionMapping: map<CapHealthPermission, string> := map[
    ReadWorkouts := HealthConnectPermission("READ_EXERCISE"),
    ReadRoute := HealthConnectPermission("READ_EXERCISE_ROUTE"),
    ReadHeartRate := HealthConnectPermission("READ_HEART_RATE"),
    ReadCalories := HealthConnectPermission("READ_ACTIVE_CALORIES_BURNED"),
    ReadDistance := HealthConnectPermission("READ_DISTANCE"),
    ReadSteps := HealthConnectPermission("READ_STEPS")
  ]

  /** The part of each Health Connect string after the prefix. */
  function NativeSuffix(p: CapHealthPermission): string
  {
    match p
    case ReadWorkouts => "READ_EXERCISE"
    case ReadRoute => "READ_EXERCISE_ROUTE"
    case ReadHeartRate => "READ_HEART_RATE"
    case ReadCalories => "READ_ACTIVE_CALORIES_BURNED"
    case ReadDistance => "READ_DISTANCE"
    case ReadSteps => "READ_STEPS"
  }

  /** The mapping covers every constant. */
  lemma PermissionMappingAt(p: CapHealthPermission)
    ensures p in PermissionMapping && PermissionMapping[p] == HealthConnectPermission(NativeSuffix(p))
  {
    match p
    case ReadWorkouts =>
    case ReadRoute =>
    case ReadHeartRate =>
    case ReadCalories =>
    case ReadDistance =>
    case ReadSteps =>
  }

  /** The mapping is total, and no two constants share a string. */
  lemma PermissionMappingTotalAndInjective()
    ensures forall p :: p in PermissionMapping && PermissionMapping[p] == HealthConnectPermission(NativeSuffix(p))
    ensures PermissionMapping.Keys == AllPermissions
    ensures forall p, q :: p in PermissionMapping && q in PermissionMapping && p != q ==>
              PermissionMapping[p] != PermissionMapping[q]
  {
    forall p
      ensures p in PermissionMapping && PermissionMapping[p] == HealthConnectPermission(NativeSuffix(p))
    {
      PermissionMappingAt(p);
    }
    forall p, q | p != q
      ensures HealthConnectPermission(NativeSuffix(p)) != HealthConnectPermission(NativeSuffix(q))
    {
      assert NativeSuffix(p) != NativeSuffix(q);
      var n := |HealthPrefix| + 1;
      assert HealthConnectPermission(NativeSuffix(p))[n..] == NativeSuffix(p);
      assert HealthConnectPermission(NativeSuffix(q))[n..] == NativeSuffix(q);
    }
  }

  /**
   * `permissions.mapNotNull { permissionMapping[it] }.toSet()`: the Health
   * Connect permissions handed to the system dialog.
   */
  function HealthConnectPermissions(ps: set<CapHealthPermission>): (native: set<string>)
    ensures forall p :: p in ps ==> p in PermissionMapping && PermissionMapping[p] in native
    ensures forall s :: s in native ==> exists p :: p in ps && p in PermissionMapping && PermissionMapping[p] == s
  {
    PermissionMappingTotalAndInjective();
    LookupAll(PermissionMapping, ps)
  }

  /**
   * Because the mapping is total and injective, `mapNotNull` drops nothing
   * and no two requested permissions collapse: one native string each.
   */
  lemma HealthConnectPermissionsSize(ps: set<CapHealthPermission>)
    ensures |HealthConnectPermissions(ps)| == |ps|
  {
    var m := PermissionMapping;
    PermissionMappingTotalAndInjective();
    assert ps <= m.Keys;
    assert forall a, b :: a in ps && b in ps && a != b ==> m[a] != m[b];
    InjectiveImageSize(m, ps);
  }

  /** `ks.mapNotNull { m[it] }.toSet()`: the values `m` has for the keys in `ks`. */
  function LookupAll<K, V>(m: map<K, V>, ks: set<K>): set<V>
  {
    set k | k in ks && k in m :: m[k]
  }

  /** Looking up the keys of a set in a map that is injective on it loses no element. */
  lemma {:induction false} InjectiveImageSize<K, V>(m: map<K, V>, ks: set<K>)
    requires ks <= m.Keys
    requires forall a, b :: a in ks && b in ks && a != b ==> m[a] != m[b]
    ensures |LookupAll(m, ks)| == |ks|
  {
    if ks != {} {
      var k :| k in ks;
      var rest := ks - {k};
      InjectiveImageSize(m, rest);
      assert m[k] !in LookupAll(m, rest);
      assert LookupAll(m, ks) == LookupAll(m, rest) + {m[k]};
    }
  }

  /** `lastIndexOf(c)`: the index of the last occurrence of `c`, or -1. */
  function LastIndexOf(s: string, c: char): (i: int)
    ensures -1 <= i < |s|
    ensures i >= 0 ==> s[i] == c
    ensures forall j :: i < j < |s| ==> s[j] != c
  {
    if |s| == 0 then -1
    else if s[|s| - 1] == c then |s| - 1
    else LastIndexOf(s[..|s| - 1], c)
  }

  /**
   * Kotlin's `substringAfterLast(delimiter)`: the text after the last
   * delimiter, or the whole string when there is none.
   */
  function SubstringAfterLast(s: string, delimiter: char): (r: string)
    ensures delimiter !in r
    ensures |r| <= |s| && r == s[|s| - |r|..]
    ensures delimiter !in s ==> r == s
    ensures delimiter in s ==> |r| < |s| && s[|s| - |r| - 1] == delimiter
  {
    var i := LastIndexOf(s, delimiter);
    if i == -1 then s else s[i + 1..]
  }

  /** The last delimiter of `prefix + [d] + tail` is the one before `tail` when `tail` has none. */
  lemma {:induction false} LastIndexOfBeforeTail(prefix: string, d: char, tail: string)
    requires d !in tail
    ensures LastIndexOf(prefix + [d] + tail, d) == |prefix|
  {
    var s := prefix + [d] + tail;
    if tail != [] {
      var shorter := tail[..|tail| - 1];
      assert s[..|s| - 1] == prefix + [d] + shorter;
      assert s[|s| - 1] == tail[|tail| - 1];
      LastIndexOfBeforeTail(prefix, d, shorter);
    }
  }

  /** `substringAfterLast` strips everything up to and including the last delimiter. */
  lemma SubstringAfterLastOfJoined(prefix: string, d: char, tail: string)
    requires d !in tail
    ensures SubstringAfterLast(prefix + [d] + tail, d) == tail
  {
    LastIndexOfBeforeTail(prefix, d, tail);
    assert (prefix + [d] + tail)[|prefix| + 1..] == tail;
  }

  /** `grantedPermissions.map { it.substringAfterLast('.') }`. */
  function StrippedGranted(granted: set<string>): (stripped: set<string>)
    ensures forall g :: g in granted ==> SubstringAfterLast(g, '.') in stripped
    ensures forall t :: t in stripped ==> exists g :: g in granted && SubstringAfterLast(g, '.') == t
  {
    set g | g in granted :: SubstringAfterLast(g, '.')
  }

  /**
   * The grant test shared by `grantedPermissionResult` and `hasPermission`:
   * the text after the last '.' of the mapped string is among the texts
   * after the last '.' of the granted strings.
   */
  predicate HasPermission(granted: set<string>, p: CapHealthPermission)
  {
    p in PermissionMapping && SubstringAfterLast(PermissionMapping[p], '.') in StrippedGranted(granted)
  }

  /** Granting the exact Health Connect string always passes the test. */
  lemma ExactGrantPasses(granted: set<string>, p: CapHealthPermission)
    requires PermissionMapping[p] in granted
    ensures HasPermission(granted, p)
  {
  }

  /** The test passes exactly when some granted string ends like the mapped one. */
  lemma HasPermissionIffSameSuffix(granted: set<string>, p: CapHealthPermission)
    ensures HasPermission(granted, p) <==>
              exists g :: g in granted && SubstringAfterLast(g, '.') == SubstringAfterLast(PermissionMapping[p], '.')
  {
  }

  /** Every mapped string is the prefix, a '.', and a suffix without '.'. */
  lemma {:induction false} MappedSuffix(p: CapHealthPermission)
    ensures '.' !in NativeSuffix(p)
    ensures PermissionMapping[p] == HealthPrefix + ['.'] + NativeSuffix(p)
    ensures SubstringAfterLast(PermissionMapping[p], '.') == NativeSuffix(p)
  {
    PermissionMappingAt(p);
    var t := NativeSuffix(p);
    assert '.' !in t by {
      match p
      case ReadWorkouts =>
      case ReadRoute =>
      case ReadHeartRate =>
      case ReadCalories =>
      case ReadDistance =>
      case ReadSteps =>
    }
    SubstringAfterLastOfJoined(HealthPrefix, '.', t);
  }

  /** The grant test as a suffix lookup. */
  lemma HasPermissionBySuffix(granted: set<string>, p: CapHealthPermission)
    ensures HasPermission(granted, p) <==> NativeSuffix(p) in StrippedGranted(granted)
  {
    MappedSuffix(p);
  }

  /** The suffix comparison ignores the prefix: the bare suffix grants. */
  lemma {:induction false} BareSuffixGrants(p: CapHealthPermission)
    ensures HasPermission({NativeSuffix(p)}, p)
  {
    var t := NativeSuffix(p);
    MappedSuffix(p);
    assert SubstringAfterLast(t, '.') == t;
    assert t in StrippedGranted({t});
  }

  /** The suffix comparison ignores the prefix: the suffix under any other prefix grants. */
  lemma {:induction false} ForeignPrefixGrants(other: string, p: CapHealthPermission)
    ensures HasPermission({other + ['.'] + NativeSuffix(p)}, p)
  {
    var t := NativeSuffix(p);
    var g := other + ['.'] + t;
    MappedSuffix(p);
    SubstringAfterLastOfJoined(other, '.', t);
    assert SubstringAfterLast(g, '.') in StrippedGranted({g});
  }

  /** The whole suffix is compared: READ_EXERCISE_ROUTE does not grant READ_EXERCISE. */
  lemma {:induction false} RouteGrantIsNotWorkoutGrant()
    ensures !HasPermission({PermissionMapping[ReadRoute]}, ReadWorkouts)
  {
    MappedSuffix(ReadRoute);
    MappedSuffix(ReadWorkouts);
    var route, exercise := NativeSuffix(ReadRoute), NativeSuffix(ReadWorkouts);
    assert StrippedGranted({PermissionMapping[ReadRoute]}) == {route};
    assert route != exercise by { assert |route| != |exercise|; }
  }

  /** The keys of the grant map: the names of the given permissions. */
  function ResultKeys(ps: set<CapHealthPermission>): (keys: set<string>)
    ensures forall p :: Name(p) in keys <==> p in ps
  {
    var keys := set p | p in ps :: Name(p);
    assert forall p :: Name(p) in keys ==> p in ps by {
      forall p | Name(p) in keys
        ensures p in ps
      {
        FromName(p);
      }
    }
    keys
  }

  /**
   * The grant map has a key exactly for each string that parses to one of
   * the given permissions: no other string appears.
   */
  lemma ResultKeysAreParsedNames(ps: set<CapHealthPermission>)
    ensures forall s :: s in ResultKeys(ps) <==> From(s).Some? && From(s).value in ps
  {
    forall s | From(s).Some? && From(s).value in ps
      ensures s in ResultKeys(ps)
    {
      assert Name(From(s).value) == s;
    }
    forall s | s in ResultKeys(ps)
      ensures From(s).Some? && From(s).value in ps
    {
      var p :| p in ps && Name(p) == s;
      FromName(p);
    }
  }

  /**
   * `grantedPermissionResult`: the inner `permissions` object, one entry per
   * requested permission under its name, true exactly when it passes the
   * grant test against `granted`.
   */
  method GrantedPermissionResult(requested: set<CapHealthPermission>, granted: set<string>)
    returns (readPermissions: map<string, bool>)
    ensures readPermissions.Keys == ResultKeys(requested)
    ensures forall p :: p in requested ==> readPermissions[Name(p)] == HasPermission(granted, p)
  {
    var withoutPrefix := StrippedGranted(granted);
    readPermissions := map[];
    var remaining := requested;
    ghost var done: set<CapHealthPermission> := {};
    while remaining != {}
      invariant remaining <= requested && done == requested - remaining
      invariant readPermissions.Keys == ResultKeys(done)
      invariant forall p :: p in done ==> Name(p) in readPermissions && readPermissions[Name(p)] == HasPermission(granted, p)
      decreases remaining
    {
      var permission :| permission in remaining;
      FromName(permission);
      ResultKeysAdd(done, permission);
      var isGranted := permission in PermissionMapping &&
                       SubstringAfterLast(PermissionMapping[permission], '.') in withoutPrefix;
      assert isGranted == HasPermission(granted, permission);
      readPermissions := readPermissions[Name(permission) := isGranted];
      remaining := remaining - {permission};
      done := done + {permission};
    }
  }

  /** Adding a permission adds its name to the keys. */
  lemma ResultKeysAdd(done: set<CapHealthPermission>, p: CapHealthPermission)
    ensures ResultKeys(done + {p}) == ResultKeys(done) + {Name(p)}
  {
    FromName(p);
  }
}
