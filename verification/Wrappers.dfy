// The optional values the other modules share: a SQL NULL, an absent dictionary entry, a Python None.
module Wrappers {
  datatype Option<+T> = None | Some(value: T)
}
