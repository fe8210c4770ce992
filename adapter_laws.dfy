/**
 * What the three adapters have in common: the abstract status-to-outcome
 * policy they all follow, and how their mappings line up.
 */
module AdapterLaws {
  import opened Wrappers
  import opened Http
  import opened Domain
  import opened DataModels
  import Authentication
  import LoadSurveyResult
  import SaveSurveyResult

  /**
   * Every status code that no adapter names (anything but 200, 401 and 403)
   * rejects with UnexpectedError, from every adapter, whatever the body.
   */
  lemma UnlistedStatusIsUnexpected<A, D, R>(
    status: int,
    authBody: Option<AccountModel>,
    loadBody: Option<RemoteSurveyResult<A>>,
    parseDate: string -> D,
    saveBody: Option<R>)
    requires status != OK && status != Unauthorized && status != Forbidden
    ensures Authentication.AuthOutcome(HttpResponse(status, authBody)) == Failure(Unexpected)
    ensures LoadSurveyResult.LoadOutcome(HttpResponse(status, loadBody), parseDate) == Failure(Unexpected)
    ensures SaveSurveyResult.SaveOutcome(HttpResponse(status, saveBody)) == Failure(Unexpected)
  {
  }

  /**
   * No adapter ever resolves on a status other than 200, and a 200 never
   * rejects: success and the OK status go together in all three.
   */
  lemma SuccessExactlyOnOk<A, D, R>(
    status: int,
    authBody: Option<AccountModel>,
    loadBody: Option<RemoteSurveyResult<A>>,
    parseDate: string -> D,
    saveBody: Option<R>)
    requires LoadSurveyResult.Readable(HttpResponse(status, loadBody))
    ensures Authentication.AuthOutcome(HttpResponse(status, authBody)).Success? <==> status == OK
    ensures LoadSurveyResult.LoadOutcome(HttpResponse(status, loadBody), parseDate).Success? <==> status == OK
    ensures SaveSurveyResult.SaveOutcome(HttpResponse(status, saveBody)).Success? <==> status == OK
  {
  }

  /**
   * The two survey-result adapters fail alike: on any status but 200, load
   * and save reject with the same error.
   */
  lemma SurveyAdaptersFailAlike<A, D, R>(
    status: int,
    loadBody: Option<RemoteSurveyResult<A>>,
    parseDate: string -> D,
    saveBody: Option<R>)
    requires status != OK
    ensures LoadSurveyResult.LoadOutcome(HttpResponse(status, loadBody), parseDate).Failure?
    ensures SaveSurveyResult.SaveOutcome(HttpResponse(status, saveBody)).Failure?
    ensures LoadSurveyResult.LoadOutcome(HttpResponse(status, loadBody), parseDate).error
         == SaveSurveyResult.SaveOutcome(HttpResponse(status, saveBody)).error
  {
  }
}
