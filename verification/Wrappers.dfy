/** The optional value shared by every part of the model. */
module Wrappers {

  datatype Option<+T> = None | Some(value: T)

  function OrElse<T>(first: Option<T>, second: Option<T>): Option<T> {
    if first.Some? then first else second
  }

  datatype Result<+R, +E> = Success(value: R) | Failure(error: E)
}
