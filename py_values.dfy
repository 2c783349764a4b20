/** The dynamically typed values that flow through the converters: parameter
    values, option values and verbatim record attributes. */
module PyValues {

  datatype Value =
    | NoneVal
    | Bool(b: bool)
    | Int(i: int)
    | Float(r: real)
    | Str(s: string)
    | List(items: seq<Value>)
    | Dict(entries: map<string, Value>)

  /** Python truthiness: `None`, `False`, zero and empty containers are false. */
  predicate Truthy(v: Value) {
    match v
    case NoneVal => false
    case Bool(b) => b
    case Int(i) => i != 0
    case Float(r) => r != 0.0
    case Str(s) => s != ""
    case List(items) => items != []
    case Dict(entries) => entries != map[]
  }
}
