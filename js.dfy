/** JavaScript values as the route handlers see them in a request body, an
    identity claim or a stored document field, and the `||` operator they
    use to pick defaults. */
module Js {

  datatype Option<+T> = None | Some(value: T)

  /** A field value: absent (`undefined`), `null`, or a string. */
  datatype Value = Undefined | Null | Str(s: string)

  /** JavaScript truthiness restricted to these values: only a non-empty
      string is truthy. */
  predicate Truthy(v: Value)
    ensures Truthy(v) <==> v != Undefined && v != Null && v != Str("")
  {
    v.Str? && v.s != ""
  }

  /** `a || b`: the left operand when it is truthy, else the right one. */
  function Or(a: Value, b: Value): (r: Value)
    ensures r == a || r == b
    ensures Truthy(r) <==> Truthy(a) || Truthy(b)
    ensures Truthy(a) ==> r == a
    ensures !Truthy(a) ==> r == b
  {
    if Truthy(a) then a else b
  }

  /** The stored counterpart of `given || null`: the given value when it is
      a non-empty string, and null otherwise. */
  predicate SuppliedOrNull(given: Value, stored: Value) {
    if Truthy(given) then stored == given else stored == Null
  }

  /** Firestore accepts every value here except `undefined`. */
  predicate Writable(v: Value) {
    !v.Undefined?
  }
}
