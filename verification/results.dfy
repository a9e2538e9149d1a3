/** Wrappers shared by the whole model: a Go pointer that may be nil
    becomes an `Option`, a `(value, error)` pair becomes a `Result`, and a bare error
    return (nil meaning success) becomes an `Outcome`. */
module Results {

  datatype Option<+T> = None | Some(value: T)

  datatype Result<+T, +E> = Ok(value: T) | Err(error: E)

  datatype Outcome<+E> = Pass | Fail(error: E)
}
