/** The optional value used for answers that may be missing: a map-file attribute, a network
    response, a channel. */
module Wrappers {

  datatype Option<+T> = None | Some(value: T)
}
