/** Option and result types shared by the modules of the model. */
module Wrappers {

  datatype Option<T> = None | Some(value: T)

  /** The outcome of an operation that throws `std::runtime_error` in the source. */
  datatype Outcome<T> = Ok(value: T) | Err(reason: string)
}
