/** The optional value that JavaScript writes as `undefined`/`null` next to a value. */
module Wrappers {

  datatype Option<+T> = None | Some(value: T)
}
