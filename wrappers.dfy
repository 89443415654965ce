/** The "found or not found" result of a lookup; None stands for the NULL pointer. */
module Wrappers {

  datatype Option<+T> = None | Some(value: T)
}
