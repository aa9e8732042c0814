/** Optional values: an absent query parameter, a header that is not set, a template that did not fail. */
module Wrappers {

  datatype Option<+T> = None | Some(value: T)
}
