/** Decoded JSON values, as Python's `json` module hands them to the code. */
module JsonValue {

  /** A decoded JSON value: `None`, a bool, a number, a string, a list or a
      dict with string keys. */
  datatype Json =
    | Null
    | Bool(b: bool)
    | Number(n: int)
    | Str(s: string)
    | Array(items: seq<Json>)
    | Object(fields: map<string, Json>)

  const EmptyObject: Json := Object(map[])

  /** Python's truth value of the decoded value, as `if x:` tests it. */
  predicate Truthy(v: Json) {
    match v
    case Null => false
    case Bool(b) => b
    case Number(n) => n != 0
    case Str(s) => s != ""
    case Array(items) => items != []
    case Object(fields) => fields != map[]
  }

  /** The name Python gives the type of the decoded value. */
  function TypeName(v: Json): string {
    match v
    case Null => "NoneType"
    case Bool(_) => "bool"
    case Number(_) => "int"
    case Str(_) => "str"
    case Array(_) => "list"
    case Object(_) => "dict"
  }
}
