/** Option, Result and Outcome: how the model represents Python's `None`
    and the exceptions raised by the modelled functions. */
module Wrappers {

  datatype Option<+T> = None | Some(value: T)

  datatype Result<+R, +E> = Success(value: R) | Failure(error: E)

  datatype Outcome<+E> = Pass | Fail(error: E)
}
