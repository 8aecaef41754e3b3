/** Values as Python's `json.load` produces them, and the few Python
    built-ins the validators apply to them (isinstance, float(), ==, hashing). */
module JsonValues {

  datatype Option<T> = None | Some(value: T)

  /** A parsed JSON value. An object is a dict with string keys. */
  datatype Json =
    | Null
    | Bool(b: bool)
    | Int(i: int)
    | Float(r: real)
    | Str(s: string)
    | Array(items: seq<Json>)
    | Object(fields: map<string, Json>)

  /** `obj.get(key, default)` */
  function GetOr(obj: map<string, Json>, key: string, default: Json): Json
  {
    if key in obj then obj[key] else default
  }

  /** `isinstance(v, (int, float))`; a bool is an int in Python. */
  predicate IsNumber(v: Json)
  {
    v.Int? || v.Float? || v.Bool?
  }

  /** `isinstance(v, int)`; a bool is an int in Python. */
  predicate IsInteger(v: Json)
  {
    v.Int? || v.Bool?
  }

  /** The numeric value Python arithmetic and comparisons see. */
  function NumericValue(v: Json): real
    requires IsNumber(v)
  {
    match v
    case Int(i) => i as real
    case Float(r) => r
    case Bool(b) => if b then 1.0 else 0.0
  }

  /** `float(v)`: `None` where Python raises. */
  function ToFloat(v: Json): (r: Option<real>)
    ensures r.Some? <==> IsNumber(v)
    ensures r.Some? ==> r.value == NumericValue(v)
  {
    if IsNumber(v) then Some(NumericValue(v)) else None
  }

  /** `v == n` for an int literal `n`: `True == 1` and `1.0 == 1` hold in Python. */
  predicate EqualsInt(v: Json, n: int)
  {
    IsNumber(v) && NumericValue(v) == n as real
  }

  /** Lists and dicts cannot be looked up in a set: `[] in {"a"}` raises TypeError. */
  predicate Hashable(v: Json)
  {
    !v.Array? && !v.Object?
  }

  /** `v in s` for a set of strings, once `v` is known to be hashable. */
  predicate IsMemberOf(v: Json, s: set<string>)
  {
    v.Str? && v.s in s
  }

  /** `isinstance(v, list) and len(v) > 0` */
  predicate IsNonEmptyList(v: Json)
  {
    v.Array? && |v.items| > 0
  }
}
