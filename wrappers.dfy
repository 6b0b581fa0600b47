/** Optional values: a field the data provider may leave out, or a call that may fail. */
module Wrappers {

  datatype Option<+T> = None | Some(value: T)
}
