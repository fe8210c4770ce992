/**
 * The transport double the adapters are exercised against: it records every
 * request it is sent and answers each one with the response it has been
 * configured with. It stands for the post, get and request clients alike.
 */
module HttpSpy {
  import opened Wrappers
  import opened Http

  class HttpClientSpy<B, R> {
    /** Every request received, oldest first. */
    var requests: seq<HttpRequest<B>>
    /** The response handed back to the next request; callers assign it directly. */
    var response: HttpResponse<R>

    constructor ()
      ensures requests == [] && response == HttpResponse(OK, None)
    {
      requests := [];
      response := HttpResponse(OK, None);
    }

    /** The url of the most recent request, if any. */
    function Url(): (u: Option<string>)
      reads this
      ensures u.Some? <==> requests != []
      ensures requests != [] ==> u.value == requests[|requests| - 1].url
    {
      if requests == [] then None else Some(requests[|requests| - 1].url)
    }

    /** The body of the most recent request, if any. */
    function Body(): (b: Option<B>)
      reads this
      ensures requests == [] ==> b == None
      ensures requests != [] ==> b == requests[|requests| - 1].body
    {
      if requests == [] then None else requests[|requests| - 1].body
    }

    method Request(req: HttpRequest<B>) returns (resp: HttpResponse<R>)
      modifies this`requests
      ensures requests == old(requests) + [req]
      ensures resp == response
    {
      requests := requests + [req];
      resp := response;
    }
  }
}
