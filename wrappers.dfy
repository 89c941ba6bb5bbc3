/** Optional values, standing in for the `null`/`undefined` of the client code,
    and the truthiness test that code applies to optional strings. */
module Wrappers {

  datatype Option<+T> = None | Some(value: T)

  /** `!!v` for a value that is either a string or absent: absent and the
      empty string are falsy, every other string is truthy. */
  predicate Truthy(v: Option<string>)
  {
    v.Some? && v.value != ""
  }
}
