/** Optional values: `None` stands for JavaScript's `undefined` or `null` where the
    source distinguishes a missing value from a present one. */
module Wrappers {

  datatype Option<+T> = None | Some(value: T)
}
