/** Decoded JSON documents as the HTTP layer hands them to the client, and the
    typed field readers the entity models apply to them. */
module Json {
  import opened Outcomes

  datatype Json =
    | JNull
    | JBool(b: bool)
    | JInt(n: int)
    | JStr(s: string)
    | JArray(items: seq<Json>)
    | JObject(fields: map<string, Json>)

  type Object = map<string, Json>

  /** A decoded JSON object that the client may change in place, as a Python dict. */
  class RawObject {
    var fields: Object

    constructor (fields: Object)
      ensures this.fields == fields
    {
      this.fields := fields;
    }
  }

  // One reader per kind of model field. A required field must be present and not
  // null; an optional one (`T | None`) may be absent or null; a field with a
  // default takes the default when absent but must not be null.

  function RequiredInt(o: Object, key: string): Result<int> {
    if key in o && o[key].JInt? then Success(o[key].n) else Failure(ValidationError)
  }

  function OptionalInt(o: Object, key: string): Result<Option<int>> {
    if key !in o || o[key].JNull? then Success(None)
    else if o[key].JInt? then Success(Some(o[key].n))
    else Failure(ValidationError)
  }

  function RequiredStr(o: Object, key: string): Result<string> {
    if key in o && o[key].JStr? then Success(o[key].s) else Failure(ValidationError)
  }

  function OptionalStr(o: Object, key: string): Result<Option<string>> {
    if key !in o || o[key].JNull? then Success(None)
    else if o[key].JStr? then Success(Some(o[key].s))
    else Failure(ValidationError)
  }

  function StrOrDefault(o: Object, key: string, default: string): Result<string> {
    if key !in o then Success(default)
    else if o[key].JStr? then Success(o[key].s)
    else Failure(ValidationError)
  }

  function RequiredBool(o: Object, key: string): Result<bool> {
    if key in o && o[key].JBool? then Success(o[key].b) else Failure(ValidationError)
  }

  function OptionalBool(o: Object, key: string): Result<Option<bool>> {
    if key !in o || o[key].JNull? then Success(None)
    else if o[key].JBool? then Success(Some(o[key].b))
    else Failure(ValidationError)
  }

  /** A `dict | None` field: an untyped JSON object, kept as it is. */
  function OptionalDict(o: Object, key: string): Result<Option<Object>> {
    if key !in o || o[key].JNull? then Success(None)
    else if o[key].JObject? then Success(Some(o[key].fields))
    else Failure(ValidationError)
  }
}
