/**
 * The JSON-like values that flow through plans, step outputs, metadata and
 * templates, with the few Python built-ins the code applies to them:
 * truthiness, `str()`, `type(x).__name__` and `dict.get`.
 */
module Values {
  import opened Text

  datatype Option<T> = None | Some(value: T)

  /**
   * A Python value as decoded from JSON: `None`, a boolean, an integer, a
   * string, a list or a dict with string keys. Floats are not modelled.
   */
  datatype Value =
    | Null
    | Bool(b: bool)
    | Int(i: int)
    | Str(s: string)
    | List(items: seq<Value>)
    | Dict(fields: map<string, Value>)

  /** Python truthiness (`bool(x)`). */
  predicate Truthy(v: Value) {
    match v
    case Null => false
    case Bool(b) => b
    case Int(i) => i != 0
    case Str(s) => s != ""
    case List(xs) => xs != []
    case Dict(m) => m != map[]
  }

  /** `x or y`: the first operand when it is truthy, the second otherwise. */
  function Or(x: Value, y: Value): (r: Value)
    ensures Truthy(x) ==> r == x
    ensures !Truthy(x) ==> r == y
  {
    if Truthy(x) then x else y
  }

  /** A value that is not a container (hashable in Python). */
  predicate IsScalar(v: Value) {
    !v.List? && !v.Dict?
  }

  /** `str(x)` for a scalar: `None`, `True`/`False`, decimal digits, the text itself. */
  function ScalarText(v: Value): string
    requires IsScalar(v)
  {
    match v
    case Null => "None"
    case Bool(b) => if b then "True" else "False"
    case Int(i) => IntToString(i)
    case Str(s) => s
  }

  /** `type(x).__name__`. */
  function TypeName(v: Value): string {
    match v
    case Null => "NoneType"
    case Bool(_) => "bool"
    case Int(_) => "int"
    case Str(_) => "str"
    case List(_) => "list"
    case Dict(_) => "dict"
  }

  /** `d.get(k)`: the entry, or `None` when the key is missing. */
  function Get(m: map<string, Value>, k: string): (r: Value)
    ensures k !in m ==> r == Null
    ensures k in m ==> r == m[k]
  {
    if k in m then m[k] else Null
  }

  /** `len(x)` for the values that have a length. */
  predicate HasLength(v: Value) {
    v.Str? || v.List? || v.Dict?
  }
}
