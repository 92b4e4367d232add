/** Outcomes of operations that can revert. */
module Results {

  datatype Option<+T> = None | Some(value: T)

  /** Either a value, or the reason the call reverted. */
  datatype Result<+T, +E> = Ok(value: T) | Err(error: E)
}
