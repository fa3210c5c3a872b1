/** Result and option types used to model the source's `panic!`, `expect` and `unwrap` paths. */
module Wrappers {
  /** A computation that either yields a value or fails with the message the source panics with. */
  datatype Result<T> = Ok(value: T) | Err(msg: string)

  datatype Option<T> = None | Some(value: T)
}
