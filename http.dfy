/**
 * The transport vocabulary the remote adapters share: what an adapter sends
 * (an HttpRequest) and what the injected client hands back (an HttpResponse).
 */
module Http {
  import opened Wrappers

  // The status codes the adapters name, with their meaning in RFC 9110.
  const OK: int := 200            // OK, section 15.3.1 of RFC 9110
  const BadRequest: int := 400    // Bad Request, section 15.5.1
  const Unauthorized: int := 401  // Unauthorized, section 15.5.2
  const Forbidden: int := 403     // Forbidden, section 15.5.4
  const NotFound: int := 404      // Not Found, section 15.5.5
  const ServerError: int := 500   // Internal Server Error, section 15.6.1

  datatype HttpMethod = Get | Post | Put | Delete

  /** One request as an adapter builds it; a GET carries no body. */
  datatype HttpRequest<B> = HttpRequest(url: string, httpMethod: HttpMethod, body: Option<B>)

  /** One response as the client delivers it: a status code and, possibly, a body. */
  datatype HttpResponse<R> = HttpResponse(statusCode: int, body: Option<R>)
}
