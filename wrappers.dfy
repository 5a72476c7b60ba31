/** Small value wrappers shared by the model. */
module Wrappers {

  /** A value that may be missing: `None` is a stored SQL NULL or an absent key. */
  datatype Option<+T> = None | Some(value: T)

  /** The outcome of a call that may throw. */
  datatype Result<+R, +E> = Success(value: R) | Failure(error: E)

  /** A JavaScript property of type `T | null` that may also be left out:
      `Absent` is `undefined`, `Null` is an explicit `null`, `Present(v)` is a value.
      Keeping the three apart is what lets a payload say "leave it" and "remove it". */
  datatype Field<+T> = Absent | Null | Present(value: T)
}
