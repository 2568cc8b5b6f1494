/** The optional value used for things the host may or may not supply:
    an open folder, a picker selection, an action attached to an item. */
module Wrappers {
  datatype Option<+T> = None | Some(value: T)
}
