/** JavaScript values as far as the interview backend inspects them, and the
    Option/Result wrappers used for absent values and thrown errors. */
module Values {

  datatype Option<+T> = None | Some(value: T)

  datatype Result<+R, +E> = Success(value: R) | Failure(error: E)

  /** A request field or a stored text: missing, `null`, or a string. */
  datatype Value = Undefined | Null | Str(s: string)

  /** JavaScript truthiness restricted to these values: only a non-empty
      string is truthy. */
  predicate Truthy(v: Value) {
    v.Str? && v.s != ""
  }

  /** `String(v)`, the text a template literal or `+=` produces for `v`. */
  function Render(v: Value): (r: string)
    ensures v.Str? ==> r == v.s
    ensures v.Undefined? ==> r == "undefined"
    ensures v.Null? ==> r == "null"
  {
    match v
    case Undefined => "undefined"
    case Null => "null"
    case Str(s) => s
  }

  /** `a || b` on values. */
  function Or(a: Value, b: Value): (r: Value)
    ensures Truthy(a) ==> r == a
    ensures !Truthy(a) ==> r == b
  {
    if Truthy(a) then a else b
  }
}
