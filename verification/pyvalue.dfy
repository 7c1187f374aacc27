/** The Python values that flow through the pipeline: what `json.loads`
    returns and what the stages build as dictionaries. */
module PyValue {
  import Text

  datatype Value =
    | VNone
    | VBool(b: bool)
    | VInt(i: int)
    | VFloat(x: real)
    | VStr(s: string)
    | VList(items: seq<Value>)
    | VDict(fields: map<string, Value>)

  /** Python truthiness: `bool(v)`. */
  predicate Truthy(v: Value) {
    match v
    case VNone => false
    case VBool(b) => b
    case VInt(i) => i != 0
    case VFloat(x) => x != 0.0
    case VStr(s) => |s| > 0
    case VList(items) => |items| > 0
    case VDict(fields) => |fields| > 0
  }

  /** `type(v).__name__` */
  function TypeName(v: Value): string {
    match v
    case VNone => "NoneType"
    case VBool(_) => "bool"
    case VInt(_) => "int"
    case VFloat(_) => "float"
    case VStr(_) => "str"
    case VList(_) => "list"
    case VDict(_) => "dict"
  }

  /** The `AttributeError` message for `.get` on a value of the named type. */
  function NoGet(typeName: string): string {
    "'" + typeName + "' object has no attribute 'get'"
  }

  /** The `TypeError` message for iterating a value of the named type. */
  function NotIterable(typeName: string): string {
    "'" + typeName + "' object is not iterable"
  }

  /** The `TypeError` message for `reversed()` on a value of the named type. */
  function NotReversible(typeName: string): string {
    "'" + typeName + "' object is not reversible"
  }

  /** `str(v)`: exact for None, booleans, integers and strings; floats and
      containers are shown by their type name only. */
  function Show(v: Value): string {
    match v
    case VNone => "None"
    case VBool(b) => if b then "True" else "False"
    case VInt(i) => Text.IntToString(i)
    case VStr(s) => s
    case _ => "<" + TypeName(v) + ">"
  }

  /** A list of strings as a Python list value. */
  function StrList(xs: seq<string>): (r: Value)
    ensures r.VList? && |r.items| == |xs|
    ensures forall i | 0 <= i < |xs| :: r.items[i] == VStr(xs[i])
  {
    VList(seq(|xs|, i requires 0 <= i < |xs| => VStr(xs[i])))
  }
}
