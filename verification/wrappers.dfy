/** The optional value returned by the map's point query. */
module Wrappers {
  datatype Option<+T> = None | Some(value: T)
}
