/** The error answers the handlers return before or instead of querying. */
module Http {
  /** An HTTP error status with the `error` text of its JSON body. */
  datatype Rejection = Rejection(status: int, message: string)

  function BadRequest(message: string): Rejection
  {
    Rejection(400, message)
  }
}
