/** Parsed YAML values, as `yaml.safe_load` hands them to the daemon, and the
    two Python rules the daemon applies to them: truthiness and `dict.get`. */
module Values {

  datatype Option<+T> = None | Some(value: T)

  /** A YAML scalar or collection. Floats and dates are not modelled. */
  datatype Value =
    | VNone
    | VBool(b: bool)
    | VInt(i: int)
    | VStr(s: string)
    | VList(items: seq<Value>)
    | VMap(entries: map<string, Value>)

  /** Python truthiness: None, False, 0 and empty strings, lists and dicts are falsy. */
  predicate Truthy(v: Value) {
    match v
    case VNone => false
    case VBool(b) => b
    case VInt(i) => i != 0
    case VStr(s) => s != ""
    case VList(items) => items != []
    case VMap(entries) => entries != map[]
  }

  /** `d.get(key, default)`: a key that is present wins, even when it maps to None. */
  function Get(d: map<string, Value>, key: string, default: Value): (r: Value)
    ensures key in d ==> r == d[key]
    ensures key !in d ==> r == default
  {
    if key in d then d[key] else default
  }
}
