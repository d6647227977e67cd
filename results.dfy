/** Optional values and outcomes that carry an error message. */
module Results {

  datatype Option<+T> = None | Some(value: T)

  /** The value of a computation that may fail with a human-readable message,
      as a rejected promise or a raised exception does in the source. */
  datatype Result<+T> = Ok(value: T) | Err(error: string)
}
