/** Optional values: `None` stands for a null pointer or a missing runtime answer. */
module Wrappers {

  datatype Option<+T> = None | Some(value: T)
}
