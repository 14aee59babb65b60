/** The two-valued wrapper used for nullable columns and optional results. */
module Wrappers {
  datatype Option<+T> = None | Some(value: T)
}
