/** Optional values: `None` stands for a JavaScript `NaN` or `null` result. */
module Wrappers {
  datatype Option<+T> = None | Some(value: T)
}
