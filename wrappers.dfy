/** Optional values and fallible results, as used throughout the model.
    An `Err` carries the message of the JavaScript `Error` the source throws. */
module Wrappers {

  /** `undefined` / absent (None) or a present value (Some). */
  datatype Option<T> = None | Some(value: T)

  /** A value, or the message of a thrown (or rejected) `Error`. */
  datatype Result<T> = Ok(value: T) | Err(message: string)

  /** A check that passes, or fails with a message (`{ valid, error? }` in the source). */
  datatype Validation = Valid | Invalid(error: string)
}
