/** Option and Result, as the source uses them: resolvers answer with an
    Option, and `build` answers with a Result. */
module Wrappers {

  datatype Option<+T> = None | Some(value: T)

  datatype Result<+T, +E> = Success(value: T) | Failure(error: E)
}
