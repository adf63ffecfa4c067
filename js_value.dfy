/** The field values a record can hold, as far as `typeof` and `String()` tell them apart. */
module JsValue {
  import JsNumber
  import Text

  datatype Value =
    | Str(s: string)
    | Num(n: JsNumber.IntOrNaN)
    | Bool(b: bool)
    | Arr(items: seq<Value>)
    | Null
    | Undefined

  /** `String(v)`. An array joins its elements' strings with commas, writing `null` and
      `undefined` elements as empty strings. */
  function ToJsString(v: Value): string
    decreases v
  {
    match v
    case Str(s) => s
    case Num(n) => JsNumber.ToString(n)
    case Bool(b) => if b then "true" else "false"
    case Null => "null"
    case Undefined => "undefined"
    case Arr(items) =>
      Text.Join(seq(|items|, i requires 0 <= i < |items| =>
        if items[i].Null? || items[i].Undefined? then "" else ToJsString(items[i])), ',')
  }
}
