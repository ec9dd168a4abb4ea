/**
 * Values shared by the whole storefront model: optional values, the values
 * bound to SQL `?` placeholders and stored in table columns, JSON request
 * bodies, and JavaScript truthiness on both.
 */
module Common {

  datatype Option<T> = None | Some(value: T)

  /** A value bound to a `?` placeholder or stored in a column.
      `JsonText(xs)` is the serialised JSON text of the string array `xs`
      (serialisation itself is not modelled). */
  datatype Value = Null | Int(i: int) | Text(s: string) | JsonText(items: seq<string>)

  /** JavaScript truthiness of a bound value: `null`, `0` and `''` are falsy. */
  predicate Truthy(v: Value)
  {
    match v
    case Null => false
    case Int(i) => i != 0
    case Text(s) => s != ""
    case JsonText(_) => true
  }

  /** A parsed JSON request body value. */
  datatype Json =
    | JNull
    | JBool(b: bool)
    | JNum(n: int)
    | JStr(s: string)
    | JArr(elems: seq<Json>)
    | JObj(fields: map<string, Json>)

  /** JavaScript truthiness of a parsed JSON value; arrays and objects are always truthy. */
  predicate JsonTruthy(j: Json)
  {
    match j
    case JNull => false
    case JBool(b) => b
    case JNum(n) => n != 0
    case JStr(s) => s != ""
    case JArr(_) => true
    case JObj(_) => true
  }

  /** `!obj[key]` in JavaScript: an absent key reads as `undefined`, which is falsy. */
  predicate MissingOrFalsy(obj: map<string, Json>, key: string)
  {
    key !in obj || !JsonTruthy(obj[key])
  }

  /** `Math.min` on integers. */
  function Min(a: int, b: int): int { if a <= b then a else b }

  /** An operation that either produces a value or fails with an error the source throws. */
  datatype Result<T, E> = Ok(value: T) | Err(error: E)

  /** The outcome of a call into a service that may throw. */
  datatype Outcome<T> = Returned(value: T) | Threw(message: string)
}
