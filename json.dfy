/**
 * JSON-like values: the Python dicts, lists and scalars that the core reads
 * with `.get`, joins with `', '.join` and tests for truthiness.
 */
module Json {
  datatype Value =
    | Null
    | Bool(b: bool)
    | Int(i: int)
    | Str(s: string)
    | List(items: seq<Value>)
    | Obj(fields: map<string, Value>)

  /** `d.get(key, default)` on a dict. */
  function Get(d: map<string, Value>, key: string, default: Value): Value
  {
    if key in d then d[key] else default
  }

  /** Python truthiness of a value, as in `if value:`. */
  predicate Truthy(v: Value)
  {
    match v
    case Null => false
    case Bool(b) => b
    case Int(i) => i != 0
    case Str(s) => s != ""
    case List(items) => items != []
    case Obj(fields) => fields != map[]
  }

  /**
   * Whether `', '.join(v)` returns instead of raising TypeError: it needs an
   * iterable of strings, which a string (its characters), a JSON object (its
   * keys) and a list of strings are, and None, booleans and numbers are not.
   */
  predicate Joinable(v: Value)
  {
    match v
    case Str(_) => true
    case Obj(_) => true
    case List(items) => forall i :: 0 <= i < |items| ==> items[i].Str?
    case _ => false
  }
}
