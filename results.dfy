/** The outcome of awaiting a value that may fail: a resolved value, or the
    error a plugin threw or the rejection reason its promise carried. */
module Results {

  datatype Result<+T, +E> = Ok(value: T) | Err(error: E)
}
