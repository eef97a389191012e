/** Result types shared by the whole model. */
module Wrappers {

  datatype Option<+T> = None | Some(value: T)

  datatype Result<+T, +E> = Ok(value: T) | Err(error: E)

  /** The settlement of an awaited call: it resolved, or it rejected with an error. */
  datatype Outcome<+E> = Pass | Fail(error: E)
}
