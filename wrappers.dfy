/** Optional values: the source's `None` for "no number yet" and "no move chosen". */
module Wrappers {

  datatype Option<+T> = None | Some(value: T)
}
