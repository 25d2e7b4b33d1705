/** Optional values and results shared by every module of the model. */
module Wrappers {
  /** A value that may be absent: Python's `None`, or a NaN metric. */
  datatype Option<T> = None | Some(value: T)

  /** The outcome of an operation that can raise: a value, or the error it raises. */
  datatype Result<T, E> = Ok(value: T) | Err(error: E)

  /** Python's `x or default` for an optional string: `None` and `""` are both falsy. */
  function OrDefault(x: Option<string>, default: string): (r: string)
    ensures x.Some? && x.value != "" ==> r == x.value
    ensures (x.None? || x.value == "") ==> r == default
  {
    if x.Some? && x.value != "" then x.value else default
  }
}
