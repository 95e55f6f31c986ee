/**
 * The Android plugin object: the Health Connect availability flag and the
 * pending permission request that the permission screen's callback resolves.
 * A plugin call is identified by a number; resolving or rejecting it is an
 * `Outcome`.
 */
module AndroidPlugin {
  import opened Wrappers
  import opened JsonValues
  import opened AndroidPermissions

  /** The identity of a `PluginCall`. */
  type CallId = nat

  /** How a plugin call completes. */
  datatype Outcome = Resolve(data: JsObject) | Reject(message: string)

  /** `RequestPermissionContext`: the permissions asked for and the call waiting for the answer. */
  datatype RequestPermissionContext = RequestPermissionContext(requestedPermissions: set<CapHealthPermission>, pluginCall: CallId)

  const MissingCheckPermissions := "Must provide permissions to check"
  const MissingRequestPermissions := "Must provide permissions to request"

  /**
   * The object `grantedPermissionResult` builds: under `permissions`, one
   * boolean per requested permission, keyed by its name, telling whether a
   * granted permission has the same last segment as the permission's
   * Health Connect string.
   */
  ghost predicate IsPermissionsResult(o: JsObject, requested: set<CapHealthPermission>, granted: set<string>)
  {
    && o.Keys == {"permissions"}
    && o["permissions"].JObj?
    && o["permissions"].fields.Keys == ResultKeys(requested)
    && forall p :: p in requested ==> o["permissions"].fields[Name(p)] == JBool(HasPermission(granted, p))
  }

  /** `grantedPermissionResult` wrapped in its result object. */
  method PermissionsResult(requested: set<CapHealthPermission>, granted: set<string>) returns (o: JsObject)
    ensures IsPermissionsResult(o, requested, granted)
  {
    var readPermissions := GrantedPermissionResult(requested, granted);
    var fields := map k | k in readPermissions :: JBool(readPermissions[k]);
    o := map["permissions" := JObj(fields)];
  }

  class HealthPlugin {
    /** Whether a Health Connect client has been created. */
    var available: bool
    /** The permission request waiting for the permission screen's answer. */
    var requestPermissionContext: Option<RequestPermissionContext>

    constructor ()
      ensures !available && requestPermissionContext.None?
    {
      available := false;
      requestPermissionContext := None;
    }

    /**
     * `isHealthAvailable`: tries to create the client only while none
     * exists (`clientCreated` says whether that succeeds) and reports
     * whether one exists; once true, the flag stays true.
     */
    method IsHealthAvailable(clientCreated: bool) returns (result: JsObject)
      modifies this
      ensures available == (old(available) || clientCreated)
      ensures old(available) ==> available
      ensures result == map["available" := JBool(available)]
      ensures requestPermissionContext == old(requestPermissionContext)
    {
      if !available {
        available := clientCreated;
      }
      result := map["available" := JBool(available)];
    }

    /**
     * `checkHealthPermissions`: rejects without a permission list, and with
     * the failure of the granted-permission read; otherwise resolves with one
     * boolean per recognised name of the list. Unknown names are dropped.
     */
    method CheckHealthPermissions(permissions: Option<seq<string>>, granted: Result<set<string>, string>)
      returns (outcome: Outcome)
      ensures permissions.None? ==> outcome == Reject(MissingCheckPermissions)
      ensures permissions.Some? && granted.Err? ==> outcome == Reject("Checking permissions failed: " + granted.error)
      ensures permissions.Some? && granted.Ok? ==>
                outcome.Resolve? && IsPermissionsResult(outcome.data, ParsePermissions(permissions.value), granted.value)
    {
      if permissions.None? {
        return Reject(MissingCheckPermissions);
      }
      var requested := ParsePermissions(permissions.value);
      if granted.Err? {
        return Reject("Checking permissions failed: " + granted.error);
      }
      var result := PermissionsResult(requested, granted.value);
      return Resolve(result);
    }

    /**
     * `requestHealthPermissions`: rejects without a permission list and
     * leaves the pending request alone. Otherwise it records the request and
     * launches the permission screen with the Health Connect strings of the
     * recognised names; when the launch fails (`launchError`) the call is
     * rejected and the pending request cleared. A launched request leaves
     * the call open (`outcome` is `None`).
     */
    method RequestHealthPermissions(permissions: Option<seq<string>>, call: CallId, launchError: Option<string>)
      returns (outcome: Option<Outcome>, launched: Option<set<string>>)
      modifies this
      ensures available == old(available)
      ensures permissions.None? ==>
                outcome == Some(Reject(MissingRequestPermissions)) && launched.None? &&
                requestPermissionContext == old(requestPermissionContext)
      ensures permissions.Some? ==>
                launched == Some(HealthConnectPermissions(ParsePermissions(permissions.value)))
      ensures permissions.Some? && launchError.Some? ==>
                outcome == Some(Reject("Permission request failed: " + launchError.value)) &&
                requestPermissionContext.None?
      ensures permissions.Some? && launchError.None? ==>
                outcome.None? &&
                requestPermissionContext == Some(RequestPermissionContext(ParsePermissions(permissions.value), call))
    {
      if permissions.None? {
        return Some(Reject(MissingRequestPermissions)), None;
      }
      var requested := ParsePermissions(permissions.value);
      var healthConnectPermissions := HealthConnectPermissions(requested);
      requestPermissionContext := Some(RequestPermissionContext(requested, call));
      launched := Some(healthConnectPermissions);
      outcome := None;
      if launchError.Some? {
        outcome := Some(Reject("Permission request failed: " + launchError.value));
        requestPermissionContext := None;
      }
    }

    /**
     * The permission screen's callback: with a pending request, resolves
     * its call with the result for the requested permissions against what
     * was granted; without one, does nothing. The pending request is kept,
     * so a later answer resolves the same call again.
     */
    method OnPermissionsResult(grantedPermissions: set<string>) returns (resolved: Option<(CallId, JsObject)>)
      ensures requestPermissionContext.None? ==> resolved.None?
      ensures requestPermissionContext.Some? ==>
                && resolved.Some?
                && resolved.value.0 == requestPermissionContext.value.pluginCall
                && IsPermissionsResult(resolved.value.1, requestPermissionContext.value.requestedPermissions, grantedPermissions)
    {
      match requestPermissionContext
      case None =>
        resolved := None;
      case Some(context) =>
        var result := PermissionsResult(context.requestedPermissions, grantedPermissions);
        resolved := Some((context.pluginCall, result));
    }
  }
}
