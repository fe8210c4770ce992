/**
 * The behaviour the RemoteAuthentication tests pin down, each scenario
 * built as the tests build it: a fresh spy, an adapter bound to it, the spy's
 * response configured, one call of `auth`.
 */
module AuthenticationSpec {
  import opened Wrappers
  import opened Http
  import opened Domain
  import opened HttpSpy
  import opened Authentication

  /** A fresh adapter bound to `url` and to a fresh spy. */
  method MakeSut(url: string) returns (sut: RemoteAuthentication, spy: HttpClientSpy<AuthenticationParams, AccountModel>)
    ensures fresh(spy)
    ensures sut.url == url && sut.client == spy
    ensures spy.requests == [] && spy.response == HttpResponse(OK, None)
  {
    spy := new HttpClientSpy<AuthenticationParams, AccountModel>();
    sut := new RemoteAuthentication(url, spy);
  }

  /** The spy sees the url the adapter was built with. */
  method CallsPostClientWithCorrectUrl(url: string, params: AuthenticationParams) returns (recorded: Option<string>)
    ensures recorded == Some(url)
  {
    var sut, spy := MakeSut(url);
    var account := sut.Auth(params);
    recorded := spy.Url();
  }

  /** The spy sees the params `auth` was called with as the body, and no other request. */
  method CallsPostClientWithCorrectBody(url: string, params: AuthenticationParams)
    returns (recorded: Option<AuthenticationParams>, count: nat)
    ensures recorded == Some(params) && count == 1
  {
    var sut, spy := MakeSut(url);
    var account := sut.Auth(params);
    recorded, count := spy.Body(), |spy.requests|;
  }

  /** Status 400 rejects with UnexpectedError. */
  method BadRequestIsUnexpected(url: string, params: AuthenticationParams) returns (o: Outcome<Option<AccountModel>>)
    ensures o == Failure(Unexpected)
  {
    var sut, spy := MakeSut(url);
    spy.response := HttpResponse(BadRequest, None);
    o := sut.Auth(params);
  }

  /** Status 401 rejects with InvalidCredentialsError. */
  method UnauthorizedIsInvalidCredentials(url: string, params: AuthenticationParams) returns (o: Outcome<Option<AccountModel>>)
    ensures o == Failure(InvalidCredentials)
  {
    var sut, spy := MakeSut(url);
    spy.response := HttpResponse(Unauthorized, None);
    o := sut.Auth(params);
  }

  /** Status 404 rejects with UnexpectedError. */
  method NotFoundIsUnexpected(url: string, params: AuthenticationParams) returns (o: Outcome<Option<AccountModel>>)
    ensures o == Failure(Unexpected)
  {
    var sut, spy := MakeSut(url);
    spy.response := HttpResponse(NotFound, None);
    o := sut.Auth(params);
  }

  /** Status 500 rejects with UnexpectedError. */
  method ServerErrorIsUnexpected(url: string, params: AuthenticationParams) returns (o: Outcome<Option<AccountModel>>)
    ensures o == Failure(Unexpected)
  {
    var sut, spy := MakeSut(url);
    spy.response := HttpResponse(ServerError, None);
    o := sut.Auth(params);
  }

  /** Status 200 with an account as body resolves with that very account. */
  method OkReturnsAccount(url: string, params: AuthenticationParams, account: AccountModel)
    returns (o: Outcome<Option<AccountModel>>)
    ensures o == Success(Some(account))
  {
    var sut, spy := MakeSut(url);
    spy.response := HttpResponse(OK, Some(account));
    o := sut.Auth(params);
  }
}
