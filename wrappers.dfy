/** Optional values and results with an error, the shapes the registry uses for
    PHP's nullable fields and for the exceptions its operations throw. */
module Wrappers {

  datatype Option<+T> = None | Some(value: T)

  datatype Result<+T, +E> = Ok(value: T) | Err(error: E)
}
