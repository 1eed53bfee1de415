/** The optional-value datatype used where the bot returns `None` or an empty result. */
module Wrappers {

  datatype Option<+T> = None | Some(value: T)
}
