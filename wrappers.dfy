/** Optional values: JavaScript's `T | undefined` in the crop-calendar engine. */
module Wrappers {
  datatype Option<+T> = None | Some(value: T)
}
