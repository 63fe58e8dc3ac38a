/** Optional values, used wherever the source returns a value and an ok flag. */
module Base {
  datatype Option<+T> = None | Some(value: T)
}
