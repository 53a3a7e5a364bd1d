/** Optional values shared by the other modules. */
module Wrappers {

  /** `None` stands for Python's `None` or for a step that produced nothing. */
  datatype Option<+T> = None | Some(value: T)
}
