// The Option and Result types shared by every component of the model.
module Wrappers {

  datatype Option<+T> = None | Some(value: T)

  function GetOr<T>(o: Option<T>, default: T): T {
    match o
    case Some(v) => v
    case None => default
  }

  datatype Result<+T, +E> = Success(value: T) | Failure(error: E)
}
