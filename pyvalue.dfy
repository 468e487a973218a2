/** The JSON-shaped Python values that flow through the workflows
    (protocol data, generated content, list items given as dicts), with
    Python's truthiness and `dict.get`. Floats are not modelled. */
module PyValue {
  import Text

  datatype Value =
    | VNone
    | VBool(b: bool)
    | VInt(i: int)
    | VStr(s: string)
    | VList(items: seq<Value>)
    | VDict(fields: map<string, Value>)

  /** Python's `bool(v)`. */
  predicate Truthy(v: Value)
  {
    match v
    case VNone => false
    case VBool(b) => b
    case VInt(i) => i != 0
    case VStr(s) => s != ""
    case VList(xs) => xs != []
    case VDict(m) => m != map[]
  }

  /** `d.get(key, default)`. */
  function Get(d: map<string, Value>, key: string, default: Value): (r: Value)
    ensures key in d ==> r == d[key]
    ensures key !in d ==> r == default
  {
    if key in d then d[key] else default
  }

  /** `str(v)` for the scalar values; lists and dicts print as a fixed
      marker, since their Python `repr` is not part of the model. */
  function Str(v: Value): string
  {
    match v
    case VNone => "None"
    case VBool(b) => if b then "True" else "False"
    case VInt(i) => Text.IntToString(i)
    case VStr(s) => s
    case VList(_) => "[...]"
    case VDict(_) => "{...}"
  }

  /** `type(v).__name__`, as Python's error messages name it. */
  function TypeName(v: Value): string
  {
    match v
    case VNone => "NoneType"
    case VBool(_) => "bool"
    case VInt(_) => "int"
    case VStr(_) => "str"
    case VList(_) => "list"
    case VDict(_) => "dict"
  }

  /** A string value, or the given default for anything else. */
  function AsString(v: Value, default: string): string
  {
    if v.VStr? then v.s else default
  }

  /** The items of a list value; anything else has none. */
  function AsList(v: Value): seq<Value>
  {
    if v.VList? then v.items else []
  }
}
