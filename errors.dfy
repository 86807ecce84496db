/** The exceptions the parser throws, as values. */
module Errors {
  import opened Wrappers

  /** The underlying failure a parsing exception wraps. */
  datatype Cause =
    | JsonSyntax(detail: string)   // the decoder's syntax error
    | InvalidPath(detail: string)  // the file path cannot be turned into a path
    | ReadFailure(detail: string)  // an I/O error reading the file, or closing the stream's reader

  datatype Error =
    | IllegalArgument(message: string)
    | ParsingException(message: string, cause: Option<Cause>)
}
