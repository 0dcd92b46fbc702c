/** The untyped values that a JSON request body decodes into. */
module Json {

  /** A decoded JSON value. JavaScript numbers are modelled as reals; an absent
      object field is a key missing from `fields`. */
  datatype Value =
    | Null
    | Bool(b: bool)
    | Num(n: real)
    | Str(s: string)
    | Arr(items: seq<Value>)
    | Obj(fields: map<string, Value>)

  /** `Number.isInteger` on a finite number. */
  predicate IsInt(n: real) {
    n.Floor as real == n
  }

  /** The type name the validation library reports as "received" in its messages. */
  function TypeName(v: Value): string {
    match v
    case Null => "null"
    case Bool(_) => "boolean"
    case Num(_) => "number"
    case Str(_) => "string"
    case Arr(_) => "array"
    case Obj(_) => "object"
  }
}
