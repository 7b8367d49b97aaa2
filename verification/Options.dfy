/** Optional values: null pointers, failed allocations, absent keys. */
module Options {
  datatype Option<T> = None | Some(value: T)
}
