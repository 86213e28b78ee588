/** Optional values, as the source's `None`-able fields and results. */
module Options {

  datatype Option<+T> = None | Some(value: T)
}
