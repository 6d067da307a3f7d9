/** The optional-value type used wherever the player may have "no value": a missing tag,
    a string `int()` refuses, a path not yet in the queue. */
module Wrappers {

  datatype Option<+T> = None | Some(value: T)
}
