/** Optional values: `None` stands for a field that was never assigned. */
module Wrappers {

  datatype Option<+T> = None | Some(value: T)
}
