/**
 * The behaviour the RemoteLoadSurveyResult tests pin down, each scenario
 * built as the tests build it: a fresh spy, an adapter bound to it, the spy's
 * response configured, one call of `load`.
 */
module LoadSurveyResultSpec {
  import opened Wrappers
  import opened Http
  import opened Domain
  import opened DataModels
  import opened HttpSpy
  import opened LoadSurveyResult

  /** A fresh adapter bound to `url`, to a fresh spy and to `parseDate`. */
  method MakeSut<A, D>(url: string, parseDate: string -> D)
    returns (sut: RemoteLoadSurveyResult<A, D>, spy: HttpClientSpy<(), RemoteSurveyResult<A>>)
    ensures fresh(spy)
    ensures sut.url == url && sut.client == spy && sut.parseDate == parseDate
    ensures spy.requests == []
  {
    spy := new HttpClientSpy<(), RemoteSurveyResult<A>>();
    sut := new RemoteLoadSurveyResult(url, spy, parseDate);
  }

  /** The spy sees one GET, of the url the adapter was built with. */
  method CallsGetClientWithCorrectUrl<A, D>(url: string, wire: RemoteSurveyResult<A>, parseDate: string -> D)
    returns (recorded: Option<string>, sent: seq<HttpRequest<()>>)
    ensures recorded == Some(url)
    ensures sent == [HttpRequest(url, Get, None)]
  {
    var sut, spy := MakeSut(url, parseDate);
    spy.response := HttpResponse(OK, Some(wire));
    var result := sut.Load();
    recorded, sent := spy.Url(), spy.requests;
  }

  /** Status 403 rejects with AccessDeniedError. */
  method ForbiddenIsAccessDenied<A, D>(url: string, parseDate: string -> D) returns (o: Outcome<SurveyResult<A, D>>)
    ensures o == Failure(AccessDenied)
  {
    var sut, spy := MakeSut(url, parseDate);
    spy.response := HttpResponse(Forbidden, None);
    o := sut.Load();
  }

  /** Status 404 rejects with UnexpectedError. */
  method NotFoundIsUnexpected<A, D>(url: string, parseDate: string -> D) returns (o: Outcome<SurveyResult<A, D>>)
    ensures o == Failure(Unexpected)
  {
    var sut, spy := MakeSut(url, parseDate);
    spy.response := HttpResponse(NotFound, None);
    o := sut.Load();
  }

  /** Status 500 rejects with UnexpectedError. */
  method ServerErrorIsUnexpected<A, D>(url: string, parseDate: string -> D) returns (o: Outcome<SurveyResult<A, D>>)
    ensures o == Failure(Unexpected)
  {
    var sut, spy := MakeSut(url, parseDate);
    spy.response := HttpResponse(ServerError, None);
    o := sut.Load();
  }

  /** Status 200 resolves with the wire body's question and answers and its date, parsed. */
  method OkReturnsSurveyResult<A, D>(url: string, wire: RemoteSurveyResult<A>, parseDate: string -> D)
    returns (o: Outcome<SurveyResult<A, D>>)
    ensures o == Success(SurveyResult(wire.question, wire.answers, parseDate(wire.date)))
  {
    var sut, spy := MakeSut(url, parseDate);
    spy.response := HttpResponse(OK, Some(wire));
    o := sut.Load();
  }
}
