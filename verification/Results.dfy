/** Shared result types. */
module Results {
  datatype Option<+T> = None | Some(value: T)

  /** The simulator's exceptions and error codes become the failure side of a Result. */
  datatype Result<+T, +E> = Success(value: T) | Failure(error: E)
}
