/** Option: a value that may be missing. In this model `None` stands for
    the JavaScript value NaN wherever a number can be NaN. */
module Wrappers {

  datatype Option<+T> = None | Some(value: T)
}
