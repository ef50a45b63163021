/** JavaScript values as the two notification handlers see them.

    A field read from the webhook record or from a profile row is either
    absent (`undefined` or `null`, both `None` here) or a string.  The
    handlers test such fields with JavaScript truthiness and pick
    fallbacks with `||`; both are defined once, here. */
module Js {

  datatype Option<+T> = None | Some(value: T)

  /** Truthiness of an optional string: `undefined`, `null` and `""` are falsy. */
  predicate Truthy(s: Option<string>) {
    s.Some? && s.value != ""
  }

  /** The expression `s || fallback` where `s` is an optional string. */
  function Or(s: Option<string>, fallback: string): (r: string)
    ensures Truthy(s) ==> Some(r) == s
    ensures !Truthy(s) ==> r == fallback
    ensures fallback != "" ==> r != ""
  {
    if Truthy(s) then s.value else fallback
  }
}
