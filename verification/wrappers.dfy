/** Optional values: a board cell, a parsed coordinate, a general's location. */
module Wrappers {

  datatype Option<+T> = None | Some(value: T)
}
