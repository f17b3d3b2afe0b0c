/**
 * JSON values as the Python side sees them after `json.loads` (and as Django
 * stores them in a session): null, booleans, integers, strings, lists and
 * objects. Floating-point numbers are not modelled.
 */
module Json {

  datatype Value =
    | Null
    | Bool(b: bool)
    | Int(i: int)
    | Str(s: string)
    | List(items: seq<Value>)
    | Dict(fields: map<string, Value>)

  /** A JSON object / Python dict keyed by strings. */
  type Object = map<string, Value>

  /** Python truthiness: `None`, `False`, `0`, `""`, `[]` and `{}` are false. */
  predicate Truthy(v: Value) {
    match v
    case Null => false
    case Bool(b) => b
    case Int(i) => i != 0
    case Str(s) => |s| > 0
    case List(xs) => |xs| > 0
    case Dict(m) => |m| > 0
  }

  /** `isinstance(v, int)`: in Python `bool` is a subclass of `int`. */
  predicate IsPyInt(v: Value) {
    v.Int? || v.Bool?
  }

  /** `d.get(key, default)`. */
  function GetOr(d: Object, key: string, default: Value): Value {
    if key in d then d[key] else default
  }

  /** `d.get(key)`: `None` when the key is absent. */
  function Get(d: Object, key: string): Value {
    GetOr(d, key, Null)
  }

  /** `type(v).__name__`, as it appears in Python error messages. */
  function TypeName(v: Value): string {
    match v
    case Null => "NoneType"
    case Bool(_) => "bool"
    case Int(_) => "int"
    case Str(_) => "str"
    case List(_) => "list"
    case Dict(_) => "dict"
  }

  /** The message of the `AttributeError` Python raises for `v.attr` on a value lacking it. */
  function NoAttributeMessage(v: Value, attr: string): string {
    "'" + TypeName(v) + "' object has no attribute '" + attr + "'"
  }
}
