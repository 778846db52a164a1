/** The optional value used wherever the capture node keeps something that may
    be absent: an empty image buffer, a summary that was reset, a camera that
    was not found, a websocket message that gets no answer. */
module Wrappers {

  datatype Option<+T> = None | Some(value: T)
}
