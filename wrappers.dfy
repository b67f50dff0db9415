/** The nullable slot of the model: `None` plays the role of a null pointer. */
module Wrappers {
  datatype Option<+T> = None | Some(value: T)
}
