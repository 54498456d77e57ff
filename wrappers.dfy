/** Optional values and error results shared by every module. */
module Wrappers {
  datatype Option<T> = None | Some(value: T)

  /** The outcome of an operation the source lets raise: `Err` carries the reason. */
  datatype Result<T> = Ok(value: T) | Err(error: string)
}
