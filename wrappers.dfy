/** The optional value used for the fields of a record that may be unset
    (a TypeScript property declared with `?`) and for a parse that can fail. */
module Wrappers {

  datatype Option<+T> = None | Some(value: T)
}
