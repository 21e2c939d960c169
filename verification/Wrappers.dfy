/** Stock Option type used where the program has `undefined` or `null`. */
module Wrappers {
  datatype Option<+T> = None | Some(value: T)
}
