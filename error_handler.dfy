/** The user-facing message chosen for a failed HTTP request. */
module ErrorHandler {
  /** What a failed request carries: a response from the server, or only
      the request that got no answer. */
  datatype HttpError = HttpError(hasResponse: bool, hasRequest: bool)

  const ServerMessage := "Server error. Please try again."
  const NetworkMessage := "Network error. Check internet connection."
  const GenericMessage := "Something went wrong."

  /** A response wins over a request; neither gives the generic message. */
  function HandleError(e: HttpError): (m: string)
    ensures m == ServerMessage <==> e.hasResponse
    ensures m == NetworkMessage <==> !e.hasResponse && e.hasRequest
    ensures m == GenericMessage <==> !e.hasResponse && !e.hasRequest
  {
    if e.hasResponse then ServerMessage
    else if e.hasRequest then NetworkMessage
    else GenericMessage
  }
}
