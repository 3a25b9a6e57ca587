/** Optional values and results, used for the client's `nil` pointers and error returns. */
module Wrappers {

  datatype Option<+T> = None | Some(value: T)

  datatype Result<+R, +E> = Success(value: R) | Failure(error: E) {

    /** The success value, if any. */
    function ToOption(): Option<R>
    {
      match this
      case Success(v) => Some(v)
      case Failure(_) => None
    }

    /** The error, if any. */
    function ErrorOption(): Option<E>
    {
      match this
      case Success(_) => None
      case Failure(e) => Some(e)
    }
  }
}
