/** The optional value used for Python's `None` and for operations that may
    find nothing (a `popleft` on an empty deque, a credential that does not
    decode). */
module Wrappers {

  datatype Option<+T> = None | Some(value: T)
}
