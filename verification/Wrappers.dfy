/** The optional value that the browser store returns: `None` stands for `null`. */
module Wrappers {
  datatype Option<+T> = None | Some(value: T)
}
