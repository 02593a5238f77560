/** Decoded JSON values as the two extraction services return them, together
    with the two pieces of Python semantics the watcher relies on: truthiness
    (`if not response:`) and `dict.get` with a default. */
module Json {

  datatype Option<+T> = None | Some(value: T)

  /** A Python call that either returns normally or raises. Which exception is
      raised never matters to the watcher, so it is not recorded. */
  datatype Result<+T> = Ok(value: T) | Raised

  /** A decoded JSON document. Numbers are reals: Python decodes JSON integers
      to `int` and fractions to `float`, and the watcher only ever asks whether
      a number is zero. */
  datatype Json =
    | JNull
    | JBool(b: bool)
    | JNum(n: real)
    | JStr(s: string)
    | JArr(items: seq<Json>)
    | JObj(fields: map<string, Json>)

  /** A decoded JSON object; also one spreadsheet row (column name to cell). */
  type Object = map<string, Json>

  /** Python's `bool(v)` for a decoded JSON value. */
  predicate Truthy(v: Json) {
    match v
    case JNull => false
    case JBool(b) => b
    case JNum(n) => n != 0.0
    case JStr(s) => |s| > 0
    case JArr(items) => |items| > 0
    case JObj(fields) => |fields| > 0
  }

  /** Python's `bool(response)` for a service response that is either `None`
      (the call failed) or a decoded object. An empty object is falsy too. */
  predicate Answered(response: Option<Object>) {
    response.Some? && |response.value| > 0
  }

  /** Python's `d.get(key, default)`. */
  function Get(d: Object, key: string, default: Json): Json {
    if key in d then d[key] else default
  }

  /** A loop that performs the calls in order and stops at the first one
      that raises: either every call returned, and the results come back in
      order, or the loop raised. */
  function Collect<T>(calls: seq<Result<T>>): (r: Result<seq<T>>)
    ensures r.Ok? <==> forall i :: 0 <= i < |calls| ==> calls[i].Ok?
    ensures r.Ok? ==> |r.value| == |calls| && forall i :: 0 <= i < |calls| ==> r.value[i] == calls[i].value
    decreases |calls|
  {
    if |calls| == 0 then Ok([])
    else
      var rest := Collect(calls[1..]);
      assert forall i :: 1 <= i < |calls| ==> calls[i] == calls[1..][i - 1];
      if calls[0].Raised? then Raised
      else if rest.Raised? then
        var i :| 0 <= i < |calls[1..]| && calls[1..][i].Raised?;
        assert calls[i + 1].Raised?;
        Raised
      else Ok([calls[0].value] + rest.value)
  }
}
