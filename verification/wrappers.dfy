/** Option, Result and Poll: the three wrapper types the scan driver speaks in.
    `Poll` is the shape of every asynchronous answer: either the awaited value is
    not there yet, or it is ready. */
module Wrappers {

  datatype Option<+T> = None | Some(value: T)

  datatype Result<+T, +E> = Ok(value: T) | Err(error: E)

  datatype Poll<+T> = Pending | Ready(value: T)
}
