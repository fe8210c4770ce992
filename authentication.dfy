/**
 * RemoteAuthentication: posts the credentials to the url the adapter was
 * built with and hands back the account the server answers with.
 */
module Authentication {
  import opened Wrappers
  import opened Http
  import opened Domain
  import opened HttpSpy

  /** The one request `auth` issues: the params, POSTed to the bound url. */
  function PostRequest(url: string, params: AuthenticationParams): (req: HttpRequest<AuthenticationParams>)
    ensures req.url == url && req.httpMethod == Post && req.body == Some(params)
  {
    HttpRequest(url, Post, Some(params))
  }

  /**
   * How `auth` reads a response: 200 resolves with the body exactly as
   * received, 401 is InvalidCredentials, every other code is Unexpected.
   */
  function AuthOutcome(resp: HttpResponse<AccountModel>): (o: Outcome<Option<AccountModel>>)
    ensures o.Success? <==> resp.statusCode == OK
    ensures o.Success? ==> o.value == resp.body
    ensures o == Failure(InvalidCredentials) <==> resp.statusCode == Unauthorized
    ensures o == Failure(Unexpected) <==> resp.statusCode != OK && resp.statusCode != Unauthorized
    ensures o != Failure(AccessDenied)
  {
    if resp.statusCode == OK then Success(resp.body)
    else if resp.statusCode == Unauthorized then Failure(InvalidCredentials)
    else Failure(Unexpected)
  }

  /** A failed authentication never depends on what the body held. */
  lemma AuthFailureIgnoresBody(r1: HttpResponse<AccountModel>, r2: HttpResponse<AccountModel>)
    requires r1.statusCode == r2.statusCode != OK
    ensures AuthOutcome(r1) == AuthOutcome(r2)
  {
  }

  class RemoteAuthentication {
    const url: string
    const client: HttpClientSpy<AuthenticationParams, AccountModel>

    constructor (url: string, client: HttpClientSpy<AuthenticationParams, AccountModel>)
      ensures this.url == url && this.client == client
    {
      this.url := url;
      this.client := client;
    }

    /** Sends exactly one request, a POST of `params` to `url`, and maps its status code. */
    method Auth(params: AuthenticationParams) returns (o: Outcome<Option<AccountModel>>)
      modifies client
      ensures client.requests == old(client.requests) + [PostRequest(url, params)]
      ensures client.response == old(client.response)
      ensures o == AuthOutcome(client.response)
    {
      var resp := client.Request(PostRequest(url, params));
      o := AuthOutcome(resp);
    }
  }
}
