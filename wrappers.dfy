/** Optional values: a `?` field of the TypeScript source that may be left undefined. */
module Wrappers {

  datatype Option<T> = None | Some(value: T)
}
