/** Optional values, used where the program may find nothing to work with. */
module Wrappers {
  datatype Option<+T> = None | Some(value: T)
}
