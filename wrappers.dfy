/** Optional values: C#'s `null` for reference types and `Nullable<T>` for value types. */
module Wrappers {

  datatype Option<+T> = None | Some(value: T)
}
