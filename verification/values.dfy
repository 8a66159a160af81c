/**
 * Field values of issue records and request bodies, and the JavaScript
 * notions the handlers apply to them: truthiness and strict equality.
 */
module Values {

  datatype Option<+T> = None | Some(value: T)

  /**
   * A value that can sit in an issue field or a request body.
   * `Time` is a timestamp produced by the clock (a `Date` in the source);
   * JSON numbers are modelled as integers. On `Str`, `Num`, `Bool` and
   * `Null`, strict equality (`===`) is Dafny's `==`: a string never equals
   * a boolean, a number or null, so the filter value "true" does not match
   * the boolean `true`. A `Date` is an object and `===` compares it by
   * identity, which `==` on `Time` does not model; the handlers only ever
   * compare a `Time` with a string (a query value or a JSON `_id`), which
   * is false either way.
   */
  datatype Value =
    | Str(s: string)
    | Num(n: int)
    | Bool(b: bool)
    | Null
    | Time(t: nat)

  /** JavaScript truthiness: "", 0, false and null are falsy; every timestamp is truthy. */
  predicate IsTruthy(v: Value)
  {
    match v
    case Str(s) => s != ""
    case Num(n) => n != 0
    case Bool(b) => b
    case Null => false
    case Time(_) => true
  }

  /**
   * `!!body[key]` for a key that may be absent: an absent key reads as
   * `undefined`, which is falsy.
   */
  predicate Truthy(m: map<string, Value>, key: string)
    ensures Truthy(m, key) <==> key in m && m[key] !in {Str(""), Num(0), Bool(false), Null}
  {
    key in m && IsTruthy(m[key])
  }
}
