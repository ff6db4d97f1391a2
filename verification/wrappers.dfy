/** Optional values and results with an error message, used where the
    Python code returns `None` or raises. */
module Wrappers {

  datatype Option<+T> = None | Some(value: T)

  /** `Err` stands for an exception raised by the operation. */
  datatype Result<+T> = Ok(value: T) | Err(error: string)
}
