/** The loosely typed values a JavaScript caller can put in an input field,
    and the truthiness that the `||` operator tests. */
module JsValues {

  /** A JavaScript value. Numbers are integers here; see README. */
  datatype Value =
    | Undefined
    | Null
    | Bool(b: bool)
    | Num(n: int)
    | Str(s: string)
    | Arr(items: seq<Value>)
    | Obj(fields: map<string, Value>)

  /** JavaScript truthiness on the values modelled here: `undefined`, `null`,
      `false`, `0` and `''` are falsy; every other one, empty arrays and objects
      included, is truthy. (`NaN`, `-0` and `0n`, also falsy, are not modelled.) */
  predicate Truthy(v: Value) {
    match v
    case Undefined => false
    case Null => false
    case Bool(b) => b
    case Num(n) => n != 0
    case Str(s) => s != ""
    case Arr(_) => true
    case Obj(_) => true
  }

  /** The value of `a || b`. */
  function Or(a: Value, b: Value): Value {
    if Truthy(a) then a else b
  }

  /** `output` is what filling `input` with `fallback` gives: the input itself
      when it is truthy, the fallback otherwise. */
  predicate DefaultedFrom(input: Value, output: Value, fallback: Value) {
    (Truthy(input) ==> output == input) && (!Truthy(input) ==> output == fallback)
  }
}
