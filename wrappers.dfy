/** A value that may be absent: a request field the client left out, or a
    lookup that found nothing. */
module Wrappers {
  datatype Option<+T> = None | Some(value: T)
}
