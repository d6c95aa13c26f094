/** The values the request-handling actions pass around: inbound HTTP requests,
    outbound HTTP responses (PSR-7 messages, immutable: `withStatus` returns a
    copy) and stored expectations. */
module Domain {

  /** An inbound request as recorded in the request history. */
  datatype Request = Request(
    httpMethod: string,
    uri: string,
    headers: seq<(string, string)>,
    body: string)

  /** An outbound response. */
  datatype Response = Response(
    statusCode: int,
    reasonPhrase: string,
    headers: seq<(string, string)>,
    body: string)
  {
    /** PSR-7 `withStatus`: the same response with another status line. */
    function WithStatus(code: int, reason: string): (r: Response)
      ensures r.statusCode == code && r.reasonPhrase == reason
      ensures r.headers == headers && r.body == body
    {
      Response(code, reason, headers, body)
    }
  }

  /** A stored expectation. Only its priority takes part in selection; the
      request conditions and the response recipe are read by the comparator and
      by the response strategies, which the model keeps abstract, so they are
      carried as their JSON text. */
  datatype Expectation = Expectation(
    conditions: string,
    responseRecipe: string,
    priority: int)
}
