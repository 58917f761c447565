/** The optional-value type used for the bot's fields that start out `undefined`. */
module Wrappers {

  datatype Option<+T> = None | Some(value: T)
}
