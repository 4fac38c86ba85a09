/** Outcome types for the host code's optional values and raised errors. */
module Wrappers {

  datatype Option<+T> = None | Some(value: T)

  datatype Result<+T, +E> = Ok(value: T) | Err(error: E) {
    /** What the caller receives when the error itself does not matter. */
    function ToOption(): Option<T> {
      if Ok? then Some(value) else None
    }
  }
}
