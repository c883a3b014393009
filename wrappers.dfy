/** The absence value of the storage contract: a lookup that finds nothing
    returns None rather than failing. Also used for nullable columns. */
module Wrappers {
  datatype Option<+T> = None | Some(value: T)
}
