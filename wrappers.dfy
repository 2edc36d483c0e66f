/** Optional values, used wherever the source has a nullable field, an absl::optional
 *  or a "not set yet" sentinel. */
module Wrappers {
  datatype Option<T> = None | Some(value: T)
}
