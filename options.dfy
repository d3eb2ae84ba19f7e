/** Optional values: JavaScript's `null`/`undefined` and Python's `None`. */
module Options {
  datatype Option<+T> = None | Some(value: T)
}
