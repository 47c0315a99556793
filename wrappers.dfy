/** The optional value used for C#'s nullable results (a missing claim, a cache miss, a failed parse). */
module Wrappers {

  datatype Option<+T> = None | Some(value: T)
}
