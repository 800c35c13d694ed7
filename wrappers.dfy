/** The optional-value datatype used for absent JSON fields and for a config file that could not be read. */
module Wrappers {

  datatype Option<+T> = None | Some(value: T)
}
