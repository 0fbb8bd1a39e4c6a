/** The optional value used for a React ref that may be null and for a
    scroll request that may not be issued. */
module Wrappers {

  datatype Option<+T> = None | Some(value: T)
}
