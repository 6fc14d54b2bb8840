/** The Python values the backend reads from its YAML configuration and from
    tool arguments, with the two notions the code relies on: truthiness (what
    `if x:` and `x or y` test) and `dict.get` with a default. */
module PyData {
  import Decimal

  datatype Value =
    | PyNone
    | PyBool(b: bool)
    | PyInt(i: int)
    | PyStr(s: string)
    | PyList(items: seq<Value>)
    | PyDict(entries: map<string, Value>)

  /** Python truthiness: `None`, `False`, zero and empty containers are false. */
  predicate Truthy(v: Value) {
    match v
    case PyNone => false
    case PyBool(b) => b
    case PyInt(i) => i != 0
    case PyStr(s) => s != []
    case PyList(items) => items != []
    case PyDict(entries) => entries != map[]
  }

  /** A value that is not a container. These are exactly the values that can
      be dictionary keys: lists and dicts are unhashable. */
  predicate IsScalar(v: Value) {
    !v.PyList? && !v.PyDict?
  }

  /** The name `type(v).__name__` gives. */
  function TypeName(v: Value): string {
    match v
    case PyNone => "NoneType"
    case PyBool(_) => "bool"
    case PyInt(_) => "int"
    case PyStr(_) => "str"
    case PyList(_) => "list"
    case PyDict(_) => "dict"
  }

  /** `d.get(key, default)`: the stored value when the key is present, even a
      stored `None`; the default only when the key is missing. */
  function Get(d: map<string, Value>, key: string, default: Value): (r: Value)
    ensures key in d ==> r == d[key]
    ensures key !in d ==> r == default
  {
    if key in d then d[key] else default
  }

  /** `str(v)` of a scalar, as an f-string renders it. */
  function Str(v: Value): (r: string)
    requires IsScalar(v)
    ensures v.PyStr? ==> r == v.s
    ensures v.PyNone? ==> r == "None"
    ensures v.PyBool? ==> r == (if v.b then "True" else "False")
    ensures v.PyInt? ==> r == Decimal.ShowInt(v.i)
  {
    match v
    case PyNone => "None"
    case PyBool(b) => if b then "True" else "False"
    case PyInt(i) => Decimal.ShowInt(i)
    case PyStr(s) => s
  }
}
