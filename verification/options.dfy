/** Optional values and outcomes that may be a raised error. */
module Options {
  /** Python's `None` or a present value. */
  datatype Option<+T> = None | Some(value: T)

  /** A value, or the error a Python call raises instead of returning one. */
  datatype Result<+T> = Ok(value: T) | Err(message: string)
}
