/** Option and Result types shared by the modules of this model.
    In the numeric parts of the model `None` stands for a value that is not
    a finite number (numpy's NaN, or an infinity produced by a division). */
module Wrappers {

  datatype Option<+T> = None | Some(value: T)

  /** The outcome of an operation that the source lets raise an exception. */
  datatype Result<+T, +E> = Success(value: T) | Failure(error: E)

}
