/** Option and Result, shared by the modules of this project. */
module Wrappers {

  /** A value that may be absent; each use says which JavaScript values `None` stands for. */
  datatype Option<+T> = None | Some(value: T)

  /** The settlement of a remote call: resolved with a value or rejected with a reason. */
  datatype Result<+R, +E> = Success(value: R) | Failure(error: E)
}
