/** The optional value used where the generator writes `None` or a lookup may find nothing. */
module Wrappers {

  datatype Option<+T> = None | Some(value: T)

}
