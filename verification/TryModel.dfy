/** The result algebra shared by every other module: `Option`, and `Try`, which holds nothing,
    a value or an exception. */
module TryModel {

  datatype Option<+T> = None | Some(value: T)

  /** Exceptions are told apart only as far as the library does: the two it throws itself, and the user's. */
  datatype Exn = BrokenPromise | LogicError | User(code: int)

  datatype Try<+T> = Nothing | Value(value: T) | Exception(error: Exn)
  {
    predicate Available() {
      !Nothing?
    }
  }
}
