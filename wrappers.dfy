/** The optional value used wherever the source has a nullable result or a
    call that may throw instead of returning. */
module Wrappers {

  datatype Option<+T> = None | Some(value: T)
}
