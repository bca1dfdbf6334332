/** Optional values, standing for TypeScript's `T | undefined` and, for parseInt, for NaN. */
module Wrappers {
  datatype Option<+T> = None | Some(value: T)
}
