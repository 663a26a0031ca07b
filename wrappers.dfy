/** Optional values and success/failure results, used for the planner's
    absent response fields and for the outcome of a submission. */
module Wrappers {

  /** A value that may be absent: `undefined` or `null` in the JavaScript. */
  datatype Option<+T> = None | Some(value: T)

  /** Either a value or an error. */
  datatype Result<+T, +E> = Ok(value: T) | Err(error: E)
}
