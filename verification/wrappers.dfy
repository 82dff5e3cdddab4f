/** Failure-carrying result types used across the model. */
module Wrappers {

  /** A value that may be absent. */
  datatype Option<+T> = None | Some(value: T)

  /** Either a value or the reason there is none. A request that the program
      would abort with a panic is modelled as an `Err`. */
  datatype Result<+T, +E> = Ok(value: T) | Err(error: E)
}
