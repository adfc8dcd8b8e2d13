/** Optional values and results with an error branch, used for the Python
    `None` returns and raised exceptions of the bot. */
module Wrappers {

  datatype Option<+T> = None | Some(value: T)

  datatype Result<+T, +E> = Success(value: T) | Failure(error: E)
}
