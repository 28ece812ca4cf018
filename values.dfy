/** The dynamically typed values that the Python dictionaries of the system hold. */
module Values {
  import opened Wrappers

  /** A Python value as it appears in a request body or in user-supplied targeting data. */
  datatype Value =
    | Null
    | Bool(b: bool)
    | Int(i: int)
    | Real(r: real)
    | Str(s: string)
    | List(items: seq<Value>)
    | Tuple(items: seq<Value>)
    | Obj(fields: map<string, Value>)

  /** Python's `d.get(key, default)`. */
  function Get(d: map<string, Value>, key: string, default: Value): Value {
    if key in d then d[key] else default
  }

  /** Python's `d.get(key, default)` on a dictionary of strings. */
  function GetStr(d: map<string, string>, key: string, default: string): string {
    if key in d then d[key] else default
  }

  /** Python's `len(v)`; `None` where `len` raises a TypeError. */
  function Len(v: Value): Option<nat> {
    match v
    case Str(s) => Some(|s|)
    case List(items) => Some(|items|)
    case Tuple(items) => Some(|items|)
    case Obj(fields) => Some(|fields|)
    case _ => None
  }
}
