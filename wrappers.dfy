/** The optional value the win check returns: a mark, or Python's None. */
module Wrappers {

  datatype Option<+T> = None | Some(value: T)
}
