/** Optional values, used where the source has a nullable pointer or a std::optional. */
module Wrappers {
  datatype Option<+T> = None | Some(value: T)
}
