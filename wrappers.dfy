/** Small failure-carrying datatypes shared by the modules of this model. */
module Wrappers {

  /** A value that may be absent (JavaScript `null` / `undefined`). */
  datatype Option<+T> = None | Some(value: T)

  /** Either a value or the error a JavaScript expression would throw. */
  datatype Result<+T> = Ok(value: T) | Failure(error: string)
}
