/** The optional value of Swift (`T?`), used for the optional logger, the
    optional HTTP response and the results of the foreign parsing calls. */
module Wrappers {

  datatype Option<+T> = None | Some(value: T)
}
