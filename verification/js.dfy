/**
 The few JavaScript value notions the relay's handlers depend on: a field that may be
 absent (`undefined`/`null`), and the truthiness test `!x` applied to such a field.
 */
module Js {

  /** A value that may be missing: `None` stands for `undefined` or `null`. */
  datatype Option<+T> = None | Some(value: T)

  /** JavaScript truthiness of an optional string: missing values and "" are falsy. */
  predicate Truthy(v: Option<string>)
  {
    v.Some? && v.value != ""
  }
}
