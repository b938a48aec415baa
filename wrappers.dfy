/** The optional value that stands for Python's `None` in the replies of the branch store. */
module Wrappers {

  datatype Option<+T> = None | Some(value: T)
}
