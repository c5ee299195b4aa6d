/** Option and Result, the failure-carrying values used by the DeployBundles and Photos models. */
module Wrappers {

  datatype Option<+T> = None | Some(value: T)

  datatype Result<+R, +E> = Success(value: R) | Failure(error: E)
}
