/**
  Errors that travel through the pagination engine, and the result type that
  carries either a value or one of them (Go's `(T, error)` pairs).
 */
module Errors {

  /** The error values the engine itself produces or passes through unchanged. */
  datatype Error =
    /** ErrPageNotAvailable: a single-page pager was asked for a second page. */
    | PageNotAvailable
    /** The body of a linked page does not fit the `{links: {next}}` shape. */
    | DecodeError(field: string)
    /** Whatever error a collaborator (transport, body reader, JSON parser,
        page counter, handler, marker extractor) reported, identified by a tag. */
    | Failed(tag: string)

  /** Go's `(T, error)` result: exactly one of the two is meaningful. */
  datatype Result<+T> = Ok(value: T) | Err(error: Error)

  /** An optional value; `None` stands for Go's nil error or a nil `*string`. */
  datatype Option<+T> = None | Some(value: T)
}
