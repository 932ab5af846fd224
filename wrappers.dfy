/** Option and Result values used where the source returns null or throws. */
module Wrappers {

  datatype Option<+T> = None | Some(value: T)

  /** The outcome of an operation that either returns a value or throws an
      exception, described by its message. */
  datatype Result<+T, +E> = Ok(value: T) | Err(error: E)

  /** The elements of an Option, as a sequence of length at most one. */
  function OptionToSeq<T>(o: Option<T>): seq<T> {
    match o
    case None => []
    case Some(v) => [v]
  }
}
