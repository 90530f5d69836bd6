/** The Option type used wherever the source uses a nullable reference or a
    `bool TryGet(..., out T)` pair. */
module Wrappers {

  datatype Option<+T> = None | Some(value: T)
}
