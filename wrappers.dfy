/** Optional values, standing in for Java's null and for the outcome of a parse that may fail. */
module Wrappers {

  datatype Option<+T> = None | Some(value: T)
}
