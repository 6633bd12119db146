/** The two failure-carrying types shared by the models. */
module Wrappers {

  datatype Option<+T> = None | Some(value: T)

  /** Where the program throws, a model returns the error as a value. */
  datatype Result<+T, +E> = Ok(value: T) | Err(error: E)
}
