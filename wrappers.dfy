/** Optional values and results with an error, used for `undefined` fields,
    "not found" lookups and store calls that can fail. */
module Wrappers {

  datatype Option<+T> = None | Some(value: T)

  datatype Result<+T, +E> = Ok(value: T) | Err(error: E)
}
