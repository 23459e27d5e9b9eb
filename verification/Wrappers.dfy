/** Result shapes shared by the models of the repository's components. */
module Wrappers {

  /** A JavaScript value that may be null or undefined. */
  datatype Option<+T> = None | Some(value: T)

  /** A promise that settled: fulfilled with a value, or rejected with an error. */
  datatype Result<+T, +E> = Ok(value: T) | Err(error: E)
}
