/** The error values the collections API raises or lets through. */
module Errors {

  /**
   * `MarzPayError`: a validation failure carries a human-readable message
   * and the list of every violated constraint; any failure of the transport
   * is carried unchanged as `RequestError`.
   */
  datatype MarzPayError =
    | ValidationError(message: string, validationErrors: seq<string>)
    | RequestError(message: string)
}
