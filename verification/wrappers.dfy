/** Plain wrappers used across the model: a value that may be null, and a
    computation that either returns a value or throws a fault. */
module Wrappers {

  /** A Java reference that may be null. */
  datatype Option<+T> = None | Some(value: T)

  /** Either a normal result or the fault that interrupted the computation. */
  datatype Result<+R, +E> = Success(value: R) | Failure(error: E)

  /** The elements of a possibly-null collection; null reads as empty. */
  function OrEmpty<T>(o: Option<seq<T>>): seq<T> {
    match o
    case None => []
    case Some(xs) => xs
  }
}
