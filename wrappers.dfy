/** Optional values: a TypeScript `T | null` or `T | undefined` is an `Option<T>`. */
module Wrappers {
  datatype Option<+T> = None | Some(value: T)
}
