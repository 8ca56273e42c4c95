/** Option and Result: the two ways an operation of the backend reports an absent value or a
    raised Python exception (whose text becomes the error string). */
module Wrappers {

  datatype Option<+T> = None | Some(value: T)

  datatype Result<+T, +E> = Success(value: T) | Failure(error: E)
}
