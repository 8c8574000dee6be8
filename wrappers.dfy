/** Small value wrappers shared by the session model. */
module Wrappers {

  /** A value that may be absent (Python's `None`). */
  datatype Option<T> = None | Some(value: T)

  /** Whether a key of the per-session store holds a value at all.
      This is kept apart from `Option`: a key can be present and hold `None`. */
  datatype Key<T> = Missing | Stored(value: T)
}
