/** The small part of JavaScript's value model that the core relies on:
    the values a form field or a JSON property can hold, and truthiness. */
module Json {
  import Text

  datatype Value =
    | Undefined
    | Null
    | NaN
    | Str(s: string)
    | Num(n: int)
    | Bool(b: bool)

  /** JavaScript truthiness: `undefined`, `null`, `NaN`, `""`, `0` and
      `false` are falsy, every other value is truthy. */
  predicate Truthy(v: Value) {
    match v
    case Undefined => false
    case Null => false
    case NaN => false
    case Str(s) => s != ""
    case Num(n) => n != 0
    case Bool(b) => b
  }

  /** `String(v)`, as a template literal renders a value. */
  function ToJsString(v: Value): (r: string)
    ensures v.Str? ==> r == v.s
    ensures v.Num? ==> r == Text.IntToString(v.n)
  {
    match v
    case Undefined => "undefined"
    case Null => "null"
    case NaN => "NaN"
    case Str(s) => s
    case Num(n) => Text.IntToString(n)
    case Bool(b) => if b then "true" else "false"
  }
}
