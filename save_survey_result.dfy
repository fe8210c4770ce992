/**
 * RemoteSaveSurveyResult: saves the caller's answer by a PUT to the url the
 * adapter was built with, and reads the response's status code alone.
 */
module SaveSurveyResult {
  import opened Wrappers
  import opened Http
  import opened Domain
  import opened HttpSpy

  /** The one request `save` issues: the params, PUT to the bound url. */
  function PutRequest<P>(url: string, params: P): (req: HttpRequest<P>)
    ensures req.url == url && req.httpMethod == Put && req.body == Some(params)
  {
    HttpRequest(url, Put, Some(params))
  }

  /**
   * How `save` reads a response: 200 succeeds with no value, 403 is
   * AccessDenied, every other code is Unexpected.
   */
  function SaveOutcome<R>(resp: HttpResponse<R>): (o: Outcome<()>)
    ensures o.Success? <==> resp.statusCode == OK
    ensures o == Failure(AccessDenied) <==> resp.statusCode == Forbidden
    ensures o == Failure(Unexpected) <==> resp.statusCode != OK && resp.statusCode != Forbidden
    ensures o != Failure(InvalidCredentials)
  {
    if resp.statusCode == OK then Success(())
    else if resp.statusCode == Forbidden then Failure(AccessDenied)
    else Failure(Unexpected)
  }

  /** The response body never matters: two responses with one status code give one outcome. */
  lemma SaveOutcomeIgnoresBody<R>(r1: HttpResponse<R>, r2: HttpResponse<R>)
    requires r1.statusCode == r2.statusCode
    ensures SaveOutcome(r1) == SaveOutcome(r2)
  {
  }

  class RemoteSaveSurveyResult<P, R> {
    const url: string
    const client: HttpClientSpy<P, R>

    constructor (url: string, client: HttpClientSpy<P, R>)
      ensures this.url == url && this.client == client
    {
      this.url := url;
      this.client := client;
    }

    /** Sends exactly one request, PUT of `params` to `url`, and maps its status code. */
    method Save(params: P) returns (o: Outcome<()>)
      modifies client
      ensures client.requests == old(client.requests) + [PutRequest(url, params)]
      ensures client.response == old(client.response)
      ensures o == SaveOutcome(client.response)
    {
      var resp := client.Request(PutRequest(url, params));
      o := SaveOutcome(resp);
    }
  }

  /**
   * The adapter keeps nothing between calls: saving twice through one
   * adapter, with the client answering the same response both times, sends
   * the same request twice and resolves the same way twice.
   */
  method SaveTwiceIsStable<P, R>(url: string, params: P, resp: HttpResponse<R>)
    returns (first: Outcome<()>, second: Outcome<()>, sent: seq<HttpRequest<P>>)
    ensures first == second == SaveOutcome(resp)
    ensures sent == [HttpRequest(url, Put, Some(params)), HttpRequest(url, Put, Some(params))]
  {
    var spy := new HttpClientSpy<P, R>();
    var sut := new RemoteSaveSurveyResult(url, spy);
    spy.response := resp;
    first := sut.Save(params);
    second := sut.Save(params);
    sent := spy.requests;
  }

  /**
   * A run of save calls on one adapter bound to `url`: call i is made with
   * the params calls[i].0 while the client is configured to answer
   * calls[i].1. Each call sends its own PUT and resolves from its own
   * response alone; nothing from earlier calls carries over.
   */
  method SaveEach<P, R>(url: string, calls: seq<(P, HttpResponse<R>)>)
    returns (outcomes: seq<Outcome<()>>, sent: seq<HttpRequest<P>>)
    ensures |outcomes| == |calls| && |sent| == |calls|
    ensures forall i :: 0 <= i < |calls| ==> outcomes[i] == SaveOutcome(calls[i].1)
    ensures forall i :: 0 <= i < |calls| ==> sent[i] == PutRequest(url, calls[i].0)
  {
    var spy := new HttpClientSpy<P, R>();
    var sut := new RemoteSaveSurveyResult(url, spy);
    outcomes := [];
    var k := 0;
    while k < |calls|
      invariant 0 <= k <= |calls|
      invariant |outcomes| == k && |spy.requests| == k
      invariant forall i :: 0 <= i < k ==> outcomes[i] == SaveOutcome(calls[i].1)
      invariant forall i :: 0 <= i < k ==> spy.requests[i] == PutRequest(url, calls[i].0)
    {
      spy.response := calls[k].1;
      var o := sut.Save(calls[k].0);
      outcomes := outcomes + [o];
      k := k + 1;
    }
    sent := spy.requests;
  }
}
