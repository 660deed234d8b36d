/** Optional values: `None` stands for a field that is absent or an input that does not parse as a number. */
module Wrappers {

  datatype Option<+T> = None | Some(value: T)
}
