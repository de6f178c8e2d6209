/** The optional value used throughout the model: a dictionary key that may be
    missing, or a remote call that may raise instead of returning. */
module Wrappers {

  datatype Option<+T> = None | Some(value: T)
}
