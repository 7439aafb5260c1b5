/** Failure-carrying datatypes shared by the other modules. */
module Wrappers {

  /** A value that may be absent: C#'s `null` for references and `T?` for nullable values. */
  datatype Option<+T> = None | Some(value: T)

  /** The value of an expression that may throw instead. */
  datatype Result<+T, +E> = Ok(value: T) | Err(error: E)

  /** The outcome of an operation that first checks its cancellation token:
      `Cancelled` stands for the OperationCanceledException it throws. */
  datatype Cancellable<+T> = Cancelled | Completed(value: T)
}
