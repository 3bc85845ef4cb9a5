/** The optional value used for attribute lookups: `None` stands for a value
    that is not there (JavaScript `undefined`), `Some(v)` for a string. */
module Wrappers {

  datatype Option<+T> = None | Some(value: T)
}
