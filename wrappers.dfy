/** Optional values: `None` stands for JavaScript's `undefined` (a missing
    field or an array index past the end) and, for numbers, for `NaN`. */
module Wrappers {

  datatype Option<+T> = None | Some(value: T)
}
