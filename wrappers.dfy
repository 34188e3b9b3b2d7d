/** Optional values, for the fields the invoice record may omit and for
    the results of the parsers that invert the formatters. */
module Wrappers {
  datatype Option<+T> = None | Some(value: T)
}
