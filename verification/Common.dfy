/** What the components share. */
module Common {

  datatype Option<+T> = None | Some(value: T)

  datatype Result<+T, +E> = Ok(value: T) | Err(error: E)

  /** A login token lives this many seconds. */
  const LOGIN_LIFETIME := 3600
}
