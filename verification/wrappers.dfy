/** Optional values and error-carrying results, used for the source's nullable
    returns (`int?`, `string?`) and for the exceptions the engine would throw. */
module Wrappers {

  datatype Option<+T> = None | Some(value: T)

  datatype Result<+T> = Ok(value: T) | Err(reason: string)
}
