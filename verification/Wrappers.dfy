/** Optional values and results, in place of the scripts' nulls, thrown errors and process exits. */
module Wrappers {

  datatype Option<+T> = None | Some(value: T)

  datatype Result<+T, +E> = Ok(value: T) | Err(error: E)
}
