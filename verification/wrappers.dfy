/** Optional values and failure-carrying results, used for Python's `None`
    defaults and for calls that raise. */
module Wrappers {

  /** A value that may be missing (Python `None`, or a key absent from a dict). */
  datatype Option<+T> = None | Some(value: T)

  /** The outcome of a call that returns a value or raises. */
  datatype Result<+T> = Ok(value: T) | Err(message: string)
}
