/** Optional values and success/failure results, used for missing request
    parameters and for the outbound-call endpoint's error path. */
module Wrappers {

  datatype Option<+T> = None | Some(value: T)

  datatype Result<+R, +E> = Success(value: R) | Failure(error: E)
}
