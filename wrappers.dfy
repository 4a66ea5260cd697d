/** Optional values and results shared by every module of the model. */
module Wrappers {

  /** `undefined` versus a present value. */
  datatype Option<+T> = None | Some(value: T)

  /** A value, or the message of the `Error` the source throws instead. */
  datatype Result<+T> = Ok(value: T) | Err(message: string)
}
