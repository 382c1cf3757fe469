/** Optional values and results with an error, used for every lookup and
    every operation of the bot that can fail instead of raising. */
module Wrappers {

  datatype Option<+T> = None | Some(value: T)

  datatype Result<+T, +E> = Ok(value: T) | Err(error: E)
}
