/** Optional values, standing in for PHP's nullable results. */
module Wrappers {

  datatype Option<+T> = None | Some(value: T)
}
