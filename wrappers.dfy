/** The optional value used for nullable spreadsheet cells and for operations
    that can fail without a reason worth carrying. */
module Wrappers {
  datatype Option<+T> = None | Some(value: T)
}
