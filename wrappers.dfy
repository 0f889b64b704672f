/** Small helper datatypes shared by the driver and the installer models. */
module Wrappers {

  /** A value that may be absent: a null buffer, a missing registry value. */
  datatype Option<+T> = None | Some(value: T)
}
