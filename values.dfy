/**
 * The Python values that flow through the model: column values of a model
 * instance, decoded JSON and form payloads, configuration trees.
 * Dictionaries are keyed by strings; floats and arbitrary objects are opaque.
 */
module Values {
  import opened Text

  datatype Value =
    | Null                                  // Python's None
    | Bool(b: bool)
    | Int(i: int)
    | Str(s: string)
    | List(items: seq<Value>)
    | Dict(entries: map<string, Value>)
    | Object(id: nat)                       // any other object (floats, callables, instances)

  /** Python truthiness (`if v:`). */
  predicate Truthy(v: Value)
  {
    match v
    case Null => false
    case Bool(b) => b
    case Int(i) => i != 0
    case Str(s) => s != ""
    case List(items) => |items| > 0
    case Dict(entries) => |entries| > 0
    case Object(_) => true
  }

  /** `'%s' % v` for the scalar values; containers and opaque objects render as a fixed tag. */
  function Render(v: Value): string
  {
    match v
    case Null => "None"
    case Bool(b) => if b then "True" else "False"
    case Int(i) => IntToString(i)
    case Str(s) => s
    case _ => "<object>"
  }
}
