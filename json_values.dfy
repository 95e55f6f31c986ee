/**
 * The values a plugin call resolves with: JSON-like trees whose objects are
 * string-keyed maps (Capacitor's JSObject on Android, `[String: Any]` on iOS).
 */
module JsonValues {
  import opened Wrappers

  datatype Json =
    | JBool(b: bool)
    | JInt(i: int)
    | JNum(r: real)
    | JStr(s: string)
      /** A point in time, rendered by the platform as an ISO-8601 string or a Date. */
    | JInstant(epochSecond: int)
      /** A Health Connect `Length` object put into a JSObject as it is, unconverted. */
    | JLength(meters: real)
    | JArr(items: seq<Json>)
    | JObj(fields: map<string, Json>)

  type JsObject = map<string, Json>

  /** The value stored under `key`, if any. */
  function Field(o: JsObject, key: string): Option<Json>
  {
    if key in o then Some(o[key]) else None
  }

  /**
   * `put` of a nullable value on Android: JSObject inherits org.json's rule
   * that putting null removes the key, so the key is present exactly when
   * there is a value, and every other key is untouched.
   */
  function PutNullable(o: JsObject, key: string, v: Option<Json>): (r: JsObject)
    ensures Field(r, key) == v
    ensures forall k :: k != key ==> Field(r, k) == Field(o, k)
    ensures r.Keys == if v.Some? then o.Keys + {key} else o.Keys - {key}
  {
    match v
    case None => o - {key}
    case Some(x) => o[key := x]
  }
}
