/** Optional values and results, the two shapes every lookup and call outcome takes. */
module Wrappers {

  /** A value that may be absent (`undefined` / `null` in the portal's records). */
  datatype Option<+T> = None | Some(value: T)

  /** Either a computed value or the reason it could not be computed. */
  datatype Result<+T, +E> = Ok(value: T) | Err(error: E)
}
