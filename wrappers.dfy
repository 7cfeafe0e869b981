/** A value that may be absent: a JavaScript `undefined`/`null` or a missing row. */
module Wrappers {

  datatype Option<+T> = None | Some(value: T)
}
