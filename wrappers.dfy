/** The usual optional-value datatype, shared by the serving and data modules. */
module Wrappers {

  datatype Option<+T> = None | Some(value: T)

}
