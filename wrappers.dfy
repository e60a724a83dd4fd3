/** Optional values, used where the widget's code returns a null pointer. */
module Wrappers {

  datatype Option<+T> = None | Some(value: T)
}
