/** The two wrapper datatypes the other modules share. */
module Wrappers {

  /** A nullable column or an absent optional argument. */
  datatype Option<+T> = None | Some(value: T)

  /** A call that either returns a value or throws `error`. */
  datatype Result<+T, +E> = Success(value: T) | Failure(error: E)

  function Or<T>(o: Option<T>, default: T): T {
    match o case Some(v) => v case None => default
  }
}
