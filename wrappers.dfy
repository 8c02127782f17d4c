/** `undefined` and thrown errors, as values. */
module Wrappers {
  datatype Option<+T> = None | Some(value: T)

  datatype Result<+T, +E> = Ok(value: T) | Err(error: E)
}

/** Discord identifiers. */
module Snowflakes {
  type Snowflake = string
}
