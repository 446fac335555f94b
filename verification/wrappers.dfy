/** The optional-value type used wherever the order handler can leave a value
    undefined: a check that passes (no message), a province with no tax rate,
    a string that is not a number. */
module Wrappers {

  datatype Option<+T> = None | Some(value: T)
}
