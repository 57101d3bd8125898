/** Failure-carrying results, for the places where the Python code raises. */
module Wrappers {

  datatype Result<+T, +E> = Ok(value: T) | Err(error: E)

}
