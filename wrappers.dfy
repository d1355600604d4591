/** Option and Result datatypes shared by the modules of this model. */
module Wrappers {

  /** A value that may be absent (std::optional, an empty node handle, a failed lookup). */
  datatype Option<+T> = None | Some(value: T)

  /** The outcome of an operation that the C++ code reports by throwing. */
  datatype Result<+T, +E> = Success(value: T) | Failure(error: E)
}
