/**
 * Values produced by Python's `json.loads`, on which mission programs are built.
 * Parsing text into a `Json` value is not part of this model: callers hand the
 * parser in as a function.
 */
module Json {
  import opened Wrappers

  datatype Json =
    | JNull
    | JBool(b: bool)
    | JNum(n: real)
    | JStr(s: string)
    | JArr(items: seq<Json>)
    | JObj(fields: map<string, Json>)

  /** What Python raises while evaluating a mission program. */
  datatype PyError =
    | KeyError(key: string)
    | TypeError
    | AttributeError
    | UnknownStepType(stepDef: Json)
    | ZeroDivisionError

  /** `j[key]`: a missing key of a dict raises KeyError, subscripting a non-dict with a string raises TypeError. */
  function Subscript(j: Json, key: string): (r: Result<Json, PyError>)
    ensures r.Ok? <==> j.JObj? && key in j.fields
    ensures r.Ok? ==> r.value == j.fields[key]
    ensures r.Err? && j.JObj? ==> r.error == KeyError(key)
    ensures r.Err? && !j.JObj? ==> r.error == TypeError
  {
    if !j.JObj? then Err(TypeError)
    else if key !in j.fields then Err(KeyError(key))
    else Ok(j.fields[key])
  }

  /** `j.get(key, default)` on a dict (every caller has already subscripted `j` as a dict). */
  function GetOrDefault(j: Json, key: string, default: Json): (r: Json)
    requires j.JObj?
    ensures key in j.fields ==> r == j.fields[key]
    ensures key !in j.fields ==> r == default
  {
    if key in j.fields then j.fields[key] else default
  }
}
