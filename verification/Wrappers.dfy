/** Option and Result, and how a call of an outside service may end, as the rest of the model uses them. */
module Wrappers {
  datatype Option<+T> = None | Some(value: T)

  datatype Result<+T, +E> = Ok(value: T) | Err(error: E)

  /** A call comes back, or raises with its effect applied or not. */
  datatype Fault = Fine | RaisesBefore | RaisesAfter
}
