/** Failure-carrying results shared by the other modules. */
module Wrappers {

  datatype Option<+T> = None | Some(value: T)

  /** The Python exceptions the page can raise while resolving or sampling. */
  datatype Error =
    | KeyError(key: string)  // subscripting a dict with a missing key
    | IndexError             // random.choice on an empty list

  datatype Result<+T> = Success(value: T) | Failure(error: Error)
}
