/** The optional value used throughout the model: `None` stands for Python's
    `None`, or, where a member's documentation says so, for an exception
    that was raised. */
module Wrappers {
  datatype Option<+T> = None | Some(value: T)
}
