/** Go's `error` values as one tagged datatype, and the Option/Result
    wrappers the rest of the model returns. */
module Errors {

  datatype Option<+T> = None | Some(value: T)

  datatype Result<+T> = Ok(value: T) | Err(error: Error)

  /** Every error value the core can return or receive.
      `Opaque` stands for an error made by a collaborator that the model does
      not look into (a terminal read, a mutator, a transport failure);
      `Wrapped` is `errors.Wrap(cause, context)`. */
  datatype Error =
    | Opaque(id: nat)
    | HTTPError(statusCode: int)
    | DictionaryNotFound
    | TooManyItems
    | DuplicateKey(key: string)
    | KeyTooLong(key: string)
    | ValueTooLong(key: string, value: string)
    | MissingService
    | MissingDictionary
    | BatchUpdateMaximumItemsExceeded
    | InvalidTokenScope(scope: string)
    | Wrapped(context: string, cause: Error)
}
