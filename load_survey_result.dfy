/**
 * RemoteLoadSurveyResult: fetches the survey result from the url the
 * adapter was built with and turns the wire model into the domain model.
 * Date parsing is the platform's; here it is the `parseDate` the adapter is
 * given, about which nothing is assumed.
 */
module LoadSurveyResult {
  import opened Wrappers
  import opened Http
  import opened Domain
  import opened DataModels
  import opened HttpSpy

  /** The one request `load` issues: a GET of the bound url, without a body. */
  function GetRequest(url: string): (req: HttpRequest<()>)
    ensures req.url == url && req.httpMethod == Get && req.body == None
  {
    HttpRequest(url, Get, None)
  }

  /** A response `load` can read: a 200 carries the wire survey result. */
  predicate Readable<A>(resp: HttpResponse<RemoteSurveyResult<A>>)
  {
    resp.statusCode == OK ==> resp.body.Some?
  }

  /** The wire-to-domain translation: question and answers as they are, the date parsed. */
  function ToSurveyResult<A, D>(wire: RemoteSurveyResult<A>, parseDate: string -> D): (r: SurveyResult<A, D>)
    ensures r.question == wire.question && r.answers == wire.answers
    ensures r.date == parseDate(wire.date)
  {
    SurveyResult(wire.question, wire.answers, parseDate(wire.date))
  }

  /**
   * How `load` reads a response: 200 resolves with the translated body, 403
   * is AccessDenied, every other code is Unexpected.
   */
  function LoadOutcome<A, D>(resp: HttpResponse<RemoteSurveyResult<A>>, parseDate: string -> D): (o: Outcome<SurveyResult<A, D>>)
    requires Readable(resp)
    ensures o.Success? <==> resp.statusCode == OK
    ensures o.Success? ==> o.value.question == resp.body.value.question
    ensures o.Success? ==> o.value.answers == resp.body.value.answers
    ensures o.Success? ==> o.value.date == parseDate(resp.body.value.date)
    ensures o == Failure(AccessDenied) <==> resp.statusCode == Forbidden
    ensures o == Failure(Unexpected) <==> resp.statusCode != OK && resp.statusCode != Forbidden
    ensures o != Failure(InvalidCredentials)
  {
    if resp.statusCode == OK then Success(ToSurveyResult(resp.body.value, parseDate))
    else if resp.statusCode == Forbidden then Failure(AccessDenied)
    else Failure(Unexpected)
  }

  /** A failed load never depends on what the body held. */
  lemma LoadFailureIgnoresBody<A, D>(r1: HttpResponse<RemoteSurveyResult<A>>, r2: HttpResponse<RemoteSurveyResult<A>>, parseDate: string -> D)
    requires r1.statusCode == r2.statusCode != OK
    ensures LoadOutcome(r1, parseDate) == LoadOutcome(r2, parseDate)
  {
  }

  class RemoteLoadSurveyResult<A, D> {
    const url: string
    const client: HttpClientSpy<(), RemoteSurveyResult<A>>
    const parseDate: string -> D

    constructor (url: string, client: HttpClientSpy<(), RemoteSurveyResult<A>>, parseDate: string -> D)
      ensures this.url == url && this.client == client && this.parseDate == parseDate
    {
      this.url := url;
      this.client := client;
      this.parseDate := parseDate;
    }

    /** Sends exactly one request, a GET of `url`, and maps its status code. */
    method Load() returns (o: Outcome<SurveyResult<A, D>>)
      requires Readable(client.response)
      modifies client
      ensures client.requests == old(client.requests) + [GetRequest(url)]
      ensures client.response == old(client.response)
      ensures o == LoadOutcome(client.response, parseDate)
    {
      var resp := client.Request(GetRequest(url));
      o := LoadOutcome(resp, parseDate);
    }
  }
}
