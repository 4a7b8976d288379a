/** Optional values: the model's stand-in for a null pointer or an unassigned result. */
module Wrappers {
  datatype Option<+T> = None | Some(value: T)
}
