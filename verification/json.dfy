/** JavaScript values and parsed JSON documents, as far as the validation code looks at them. */
module Json {

  /** A JavaScript value; numbers are modelled as integers. */
  datatype JsValue = Undefined | Null | Bool(b: bool) | Number(n: int) | Str(s: string) | Compound

  /** JavaScript truthiness (`!v` is its negation). */
  predicate Truthy(v: JsValue) {
    match v
    case Undefined => false
    case Null => false
    case Bool(b) => b
    case Number(n) => n != 0
    case Str(s) => s != ""
    case Compound => true
  }

  /**
   * The result of parsing a JSON text, reduced to the one property the code
   * reads: not JSON at all (parsing throws), the value `null` (reading a
   * property of it throws), or any other value together with that property
   * (`Undefined` when it is absent or the value is not an object).
   */
  datatype Document = Malformed | NullDocument | Parsed(property: JsValue)
}
