# Remote use-case adapters

A model of the data-layer adapters of a Clean Architecture single-page
application: `RemoteAuthentication`, `RemoteLoadSurveyResult` and
`RemoteSaveSurveyResult`. Each adapter is built with a url and an injected
HTTP client. On each call it sends exactly one request to that url. It then
turns the response's status code into one outcome: a success value, or one
error from the closed set InvalidCredentials, AccessDenied and Unexpected.
Every status code an adapter does not name ends in Unexpected.

Layout:

- `wrappers.dfy`: `Option`, for the source's optional (`?`) fields.
- `http.dfy`: requests, responses, the HTTP methods, and the status codes
  used (200, 400, 401, 403, 404 and 500, as RFC 9110 defines them in
  sections 15.3.1, 15.5.1, 15.5.2, 15.5.4, 15.5.5 and 15.6.1).
- `domain.dfy`: the domain errors, `Outcome` (resolve or reject), the
  account, the authentication params, the domain survey result, and the
  survey result as it arrives on the wire (module `DataModels`).
- `http_client_spy.dfy`: the client double the adapters are bound to. It
  records every request, and its `response` field is assigned by the
  caller, as the tests do.
- `save_survey_result.dfy`, `authentication.dfy`, `load_survey_result.dfy`:
  one module per adapter. Each has a pure function from the response to the
  outcome, and a class with `const` (readonly) url and client whose method
  builds the request, passes it to the client and returns the mapped outcome.
- `authentication_spec.dfy`, `load_survey_result_spec.dfy`: the scenarios of
  the two test files as verified methods. Each builds a fresh spy and
  adapter, configures the response, makes one call and states what the test
  expects.
- `adapter_laws.dfy`: lemmas relating the three adapters.

Modelling decisions:

- Calls are synchronous. A promise that resolves becomes `Success`, and one
  that rejects with a domain error becomes `Failure`.
- Date parsing (`new Date(...)`) is a total function `parseDate: string -> D`
  given to the load adapter at construction. Nothing is assumed about it.
- The answer records of a survey result are a type parameter `A`. Their
  fields are not part of this model. The adapter copies them verbatim.
- `auth` on 200 returns the response body exactly as received, absence
  included. So its success value is an `Option<AccountModel>`.
- The spy's own source is not part of this model. A new spy answers 200
  without a body. The url test of `remote-authentication.spec.ts` awaits
  `auth` without configuring a response, so it needs a default of 200 (any
  other code would reject). That the default carries no body is an
  assumption of this model.
- The spies of the source expose only the url and body of the last request.
  The model's spy keeps every request it receives. This lets the model state
  that a call sends exactly one request, which the source's tests do not
  observe.
- The wire survey result carries exactly three fields: question, answers and
  date. A successful load is therefore determined by the wire body alone.
- The url test of `remote-load-survey-result.spec.ts` configures as body the
  mock factory itself, not a value it returns. It asserts only the url, so
  its outcome does not depend on that; the model's scenario uses a
  well-formed wire body.
- The implementations of `RemoteAuthentication` and `RemoteLoadSurveyResult`
  are not part of this model; only their tests are. Their mappings take the
  switch shape of `RemoteSaveSurveyResult`: the tested codes as the tests
  demand, and every other code Unexpected.

## Model

| member | source | states |
|---|---|---|
| SaveSurveyResult.SaveOutcome | src/data/usecases/save-survey-result/remote-save-survey-result.ts:19-26 | save succeeds exactly on 200; it rejects with AccessDenied exactly on 403, and with Unexpected exactly on every other code; it never rejects with InvalidCredentials |
| SaveSurveyResult.SaveOutcomeIgnoresBody | src/data/usecases/save-survey-result/remote-save-survey-result.ts:19-26 | the outcome of save is a function of the status code alone; the response body is never read |
| SaveSurveyResult.RemoteSaveSurveyResult.constructor | src/data/usecases/save-survey-result/remote-save-survey-result.ts:7-10 | the adapter is bound to the url and client it is given, as readonly fields |
| SaveSurveyResult.RemoteSaveSurveyResult.Save | src/data/usecases/save-survey-result/remote-save-survey-result.ts:12-27 | one call sends exactly one request (PUT of params to the bound url), leaves the configured response alone, and resolves as SaveOutcome of that response |
| SaveSurveyResult.SaveTwiceIsStable | src/data/usecases/save-survey-result/remote-save-survey-result.ts:7-27 | two saves with the same params and the same response send two identical PUT requests to the bound url and resolve identically |
| SaveSurveyResult.SaveEach | src/data/usecases/save-survey-result/remote-save-survey-result.ts:7-27 | over any run of save calls on one adapter, with the client reconfigured before each call, call i sends a PUT of its own params to the bound url and resolves as SaveOutcome of its own response, whatever came before |
| SaveSurveyResult.PutRequest | src/data/usecases/save-survey-result/remote-save-survey-result.ts:13-17 | the request save builds goes to the bound url, with method put and the params as body |
| Authentication.PostRequest | src/data/usecases/authentication/remote-authentication.spec.ts:31-45 | the request auth builds goes to the bound url, with method post and the params as body |
| Authentication.AuthOutcome | src/data/usecases/authentication/remote-authentication.spec.ts:47-97 | auth succeeds exactly on 200, with the response body unchanged; it rejects with InvalidCredentials exactly on 401, and with Unexpected exactly on every other code (400, 404, 500 among them); it never rejects with AccessDenied |
| Authentication.AuthFailureIgnoresBody | src/data/usecases/authentication/remote-authentication.spec.ts:47-85 | a failed auth depends on the status code alone |
| Authentication.RemoteAuthentication.constructor | src/data/usecases/authentication/remote-authentication.spec.ts:22 | the adapter is bound to the url and client it is given |
| Authentication.RemoteAuthentication.Auth | src/data/usecases/authentication/remote-authentication.spec.ts:31-45 | one call sends exactly one request (POST of params to the bound url), leaves the configured response alone, and resolves as AuthOutcome of that response |
| AuthenticationSpec.MakeSut | src/data/usecases/authentication/remote-authentication.spec.ts:17-28 | a fresh spy that has no requests and answers 200 without a body, and an adapter bound to the url and that spy |
| AuthenticationSpec.CallsPostClientWithCorrectUrl | src/data/usecases/authentication/remote-authentication.spec.ts:31-37 | after auth the spy's last request is to the construction url |
| AuthenticationSpec.CallsPostClientWithCorrectBody | src/data/usecases/authentication/remote-authentication.spec.ts:39-45 | after auth the spy has received one request, whose body is the params auth was called with |
| AuthenticationSpec.BadRequestIsUnexpected | src/data/usecases/authentication/remote-authentication.spec.ts:47-55 | status 400 rejects with Unexpected |
| AuthenticationSpec.UnauthorizedIsInvalidCredentials | src/data/usecases/authentication/remote-authentication.spec.ts:57-65 | status 401 rejects with InvalidCredentials |
| AuthenticationSpec.NotFoundIsUnexpected | src/data/usecases/authentication/remote-authentication.spec.ts:67-75 | status 404 rejects with Unexpected |
| AuthenticationSpec.ServerErrorIsUnexpected | src/data/usecases/authentication/remote-authentication.spec.ts:77-85 | status 500 rejects with Unexpected |
| AuthenticationSpec.OkReturnsAccount | src/data/usecases/authentication/remote-authentication.spec.ts:87-97 | status 200 with an account as body resolves with exactly that account |
| LoadSurveyResult.LoadOutcome | src/data/usecases/load-survey-result/remote-load-survey-result.spec.ts:33-73 | load succeeds exactly on 200, with the wire question and answers unchanged and the date parsed from the wire date; it rejects with AccessDenied exactly on 403, and with Unexpected exactly on every other code (404, 500 among them); it never rejects with InvalidCredentials |
| LoadSurveyResult.LoadFailureIgnoresBody | src/data/usecases/load-survey-result/remote-load-survey-result.spec.ts:33-58 | a failed load depends on the status code alone |
| LoadSurveyResult.GetRequest | src/data/usecases/load-survey-result/remote-load-survey-result.spec.ts:22-31 | the request load builds goes to the bound url, with method get and no body |
| LoadSurveyResult.ToSurveyResult | src/data/usecases/load-survey-result/remote-load-survey-result.spec.ts:68-72 | the domain result keeps the wire question and answers and holds the wire date parsed |
| LoadSurveyResult.RemoteLoadSurveyResult.constructor | src/data/usecases/load-survey-result/remote-load-survey-result.spec.ts:14 | the adapter is bound to the url and client it is given (and to the date parser) |
| LoadSurveyResult.RemoteLoadSurveyResult.Load | src/data/usecases/load-survey-result/remote-load-survey-result.spec.ts:22-31 | one call sends exactly one request (GET of the bound url, no body), leaves the configured response alone, and resolves as LoadOutcome of that response |
| LoadSurveyResultSpec.MakeSut | src/data/usecases/load-survey-result/remote-load-survey-result.spec.ts:12-19 | a fresh spy with no requests, and an adapter bound to the url and that spy |
| LoadSurveyResultSpec.CallsGetClientWithCorrectUrl | src/data/usecases/load-survey-result/remote-load-survey-result.spec.ts:22-31 | after load the spy has received exactly one request, a GET of the construction url without body |
| LoadSurveyResultSpec.ForbiddenIsAccessDenied | src/data/usecases/load-survey-result/remote-load-survey-result.spec.ts:33-40 | status 403 rejects with AccessDenied |
| LoadSurveyResultSpec.NotFoundIsUnexpected | src/data/usecases/load-survey-result/remote-load-survey-result.spec.ts:42-49 | status 404 rejects with Unexpected |
| LoadSurveyResultSpec.ServerErrorIsUnexpected | src/data/usecases/load-survey-result/remote-load-survey-result.spec.ts:51-58 | status 500 rejects with Unexpected |
| LoadSurveyResultSpec.OkReturnsSurveyResult | src/data/usecases/load-survey-result/remote-load-survey-result.spec.ts:60-73 | status 200 with a wire body resolves with exactly its question, its answers and its parsed date, and no other field |
| HttpSpy.HttpClientSpy.constructor | src/data/usecases/authentication/remote-authentication.spec.ts:31-37 | a new spy has received nothing and answers 200 without a body until configured |
| HttpSpy.HttpClientSpy.Url | src/data/usecases/authentication/remote-authentication.spec.ts:36 | the url of the most recent request, and none before any request |
| HttpSpy.HttpClientSpy.Body | src/data/usecases/authentication/remote-authentication.spec.ts:44 | the body of the most recent request, and none before any request |
| HttpSpy.HttpClientSpy.Request | src/data/usecases/authentication/remote-authentication.spec.ts:36-54 | the spy appends the request it receives to its record and answers with its configured response |
| AdapterLaws.UnlistedStatusIsUnexpected | src/data/usecases/save-survey-result/remote-save-survey-result.ts:24-25 | every code other than 200, 401 and 403 rejects with Unexpected from all three adapters, whatever the body |
| AdapterLaws.SuccessExactlyOnOk | src/data/usecases/save-survey-result/remote-save-survey-result.ts:19-26 | in all three adapters a call resolves if and only if the status is 200: no other code ever succeeds |
| AdapterLaws.SurveyAdaptersFailAlike | src/data/usecases/load-survey-result/remote-load-survey-result.spec.ts:33-58 | on every status except 200, load and save reject with the same error |

## Left out

- The concrete transport (the axios binding) is not part of this model. The
  adapters are bound to the spy class. Dafny's traits, which would give an
  abstract client interface, are not used in this project.
- Asynchrony: promises and suspension. A call is synchronous and returns its
  outcome.
- Network failures that happen before any status code exists. The adapters
  do not interpret them.
- Error message strings and the concrete `HttpStatusCode` enumeration. Errors
  are kinds, and status codes are the standard numbers.
- Date parsing. It is an injected function of which nothing is assumed.
  ISO-8601 is not modelled.
- LoadSurveyResult.LoadOutcome: requires a wire body on a 200 response
  (`Readable`). The implementation is not part of this model, and a 200
  without a body would make the date translation fail with a non-domain
  runtime error.
- LoadSurveyResult.RemoteLoadSurveyResult.Load: requires the configured
  response to carry a wire body when it is a 200 (`Readable`), for the same
  reason as LoadSurveyResult.LoadOutcome.
- Request headers. The save adapter sets none. The implementations of the
  authentication and load adapters are not part of this model, so whether
  they set headers is not captured.
- The login, signup, header and loading components are user-interface code.
  This includes the submit guard of the login and signup pages.
