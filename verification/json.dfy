/** The JSON values that `json.loads` produces from a completion, and the
    handful of Python operations the pipeline applies to them: truthiness,
    `key in x`, `x[key]` and `x.get(key, default)`. */
module Json {
  import opened Wrappers
  import opened Strings

  /** A parsed JSON value. Objects are maps from key to value; numbers are
      reals, so `0` and `0.0` are one value. */
  datatype Json =
    | JStr(s: string)
    | JNum(n: real)
    | JBool(b: bool)
    | JNull
    | JArr(items: seq<Json>)
    | JObj(fields: map<string, Json>)

  /** The message of the `TypeError` or `AttributeError` Python raises when
      a value of the wrong kind is indexed, iterated or asked for `.get`. */
  const ShapeError := "TypeError: value of unexpected type in analysis result"

  /** Python's `bool(x)`. */
  predicate Truthy(j: Json)
  {
    match j
    case JStr(s) => s != ""
    case JNum(n) => n != 0.0
    case JBool(b) => b
    case JNull => false
    case JArr(xs) => xs != []
    case JObj(m) => m != map[]
  }

  /** `key in x`: key membership for a dict, element equality for a list,
      substring for a str; anything else is not a container and raises. */
  function PyIn(key: string, x: Json): (r: Result<bool>)
    ensures r.Failure? <==> !(x.JObj? || x.JArr? || x.JStr?)
    ensures x.JObj? ==> r == Success(key in x.fields)
  {
    match x
    case JObj(m) => Success(key in m)
    case JArr(xs) => Success(JStr(key) in xs)
    case JStr(s) => Success(Contains(s, key))
    case _ => Failure(ShapeError)
  }

  /** `x[key]` with a string key: only a dict can be indexed this way. */
  function PyGetItem(x: Json, key: string): (r: Result<Json>)
    ensures r.Success? <==> x.JObj? && key in x.fields
    ensures r.Success? ==> r.value == x.fields[key]
  {
    match x
    case JObj(m) => if key in m then Success(m[key]) else Failure("'" + key + "'")
    case _ => Failure(ShapeError)
  }

  /** `x.get(key, default)`: only a dict has `.get`. */
  function PyGet(x: Json, key: string, default: Json): (r: Result<Json>)
    ensures r.Success? <==> x.JObj?
    ensures x.JObj? && key in x.fields ==> r == Success(x.fields[key])
    ensures x.JObj? && key !in x.fields ==> r == Success(default)
  {
    match x
    case JObj(m) => Success(if key in m then m[key] else default)
    case _ => Failure(ShapeError)
  }

  /** A list of strings as a JSON array. */
  function StrArray(xs: seq<string>): (r: Json)
    ensures r.JArr? && |r.items| == |xs|
    ensures forall i :: 0 <= i < |xs| ==> r.items[i] == JStr(xs[i])
  {
    JArr(seq(|xs|, i requires 0 <= i < |xs| => JStr(xs[i])))
  }
}
