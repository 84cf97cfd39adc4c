/**
 * JavaScript values as the application stores and exchanges them.
 *
 * The records of every resource are plain objects: a field read `o.k` yields
 * `undefined` when the key is absent, the spread `{...a, ...b}` is the union of the
 * two key sets where `b` wins, and `a || b` picks `a` exactly when it is truthy.
 */
module Json {

  datatype Value =
    | Undefined
    | Null
    | Bool(b: bool)
    | Num(n: real)
    | Str(s: string)
    | Arr(elems: seq<Value>)
    | Obj(fields: map<string, Value>)

  /** A plain object: its own enumerable fields. */
  type Record = map<string, Value>

  /** `o[key]`: the stored value, or `undefined` for a missing key. */
  function Field(o: Record, key: string): Value
  {
    if key in o then o[key] else Undefined
  }

  /** JavaScript truthiness (`NaN` is not modelled: numbers are reals). */
  predicate Truthy(v: Value)
  {
    match v
    case Undefined => false
    case Null => false
    case Bool(b) => b
    case Num(n) => n != 0.0
    case Str(s) => s != ""
    case Arr(_) => true
    case Obj(_) => true
  }

  /** `a || b`. */
  function Or(a: Value, b: Value): (r: Value)
    ensures Truthy(r) <==> Truthy(a) || Truthy(b)
    ensures r == a || r == b
  {
    if Truthy(a) then a else b
  }

  /**
   * What `res.json()` produced for a section's `fetch`: the promise chain was
   * rejected, the payload is not an array, or it is an array of objects.
   */
  datatype Fetched = Rejected | NotAnArray(data: Value) | Array(items: seq<Record>)
}
