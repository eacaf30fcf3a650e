/** Small value wrappers shared by the other modules. */
module Wrappers {

  /** An optional value: `None` stands for Go's nil / "not present". */
  datatype Option<+T> = None | Some(value: T)
}
