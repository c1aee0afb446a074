/** Optional values: Python's `None` and JavaScript's `NaN`/`undefined` where the source uses them. */
module Wrappers {

  datatype Option<+T> = None | Some(value: T)
}
