/** The optional value used wherever the source uses None or a missing entry. */
module Wrappers {

  datatype Option<+T> = None | Some(value: T)
}
