/** The optional value the proxy's lookups return: `Headers.get` and
    `URLSearchParams.get` give a string or null. */
module Wrappers {

  datatype Option<+T> = None | Some(value: T)
}
