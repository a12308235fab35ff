/** Option and Result types shared by every module of the model. */
module Wrappers {
  datatype Option<T> = None | Some(value: T)

  /** A computation that either produced a value or failed with a message. */
  datatype Result<T> = Success(value: T) | Failure(error: string)

  /** `x ?? d` in JavaScript, `x or d` for an optional value in Python. */
  function GetOr<T>(o: Option<T>, d: T): (r: T)
    ensures o.Some? ==> r == o.value
    ensures o.None? ==> r == d
  {
    match o
    case None => d
    case Some(v) => v
  }
}
