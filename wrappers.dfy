/** The optional value used wherever the bot may receive nothing: an unparsable
    duration, or a popup form that was never submitted. */
module Wrappers {
  datatype Option<+T> = None | Some(value: T)
}
