/** An optional value: the model's reading of `null`, `undefined` and a callback
    that may or may not be invoked. */
module Wrappers {

  datatype Option<+T> = None | Some(value: T)
}
