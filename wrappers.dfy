/** The optional value used for `wrongIndex` (JavaScript `null` or a cell index). */
module Wrappers {
  datatype Option<+T> = None | Some(value: T)
}
