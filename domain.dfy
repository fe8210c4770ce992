/**
 * The domain side of the adapters: the closed set of errors a failed call
 * ends in, the outcome of a call, and the value shapes the use cases take
 * and return.
 */
module Domain {

  /** InvalidCredentialsError, AccessDeniedError and UnexpectedError, as kinds. */
  datatype DomainError = InvalidCredentials | AccessDenied | Unexpected

  /** A call of a use case either resolves with a value or rejects with one domain error. */
  datatype Outcome<T> = Success(value: T) | Failure(error: DomainError)

  /** What `auth` is called with. */
  datatype AuthenticationParams = AuthenticationParams(email: string, password: string)

  /** What a successful authentication hands back. */
  datatype AccountModel = AccountModel(accessToken: string, name: string)

  /** A survey result as the domain sees it: the date is a parsed date value. */
  datatype SurveyResult<A, D> = SurveyResult(question: string, answers: seq<A>, date: D)
}

/** The data layer's wire models, as the server sends them. */
module DataModels {

  /** A survey result on the wire: the date is still a string. */
  datatype RemoteSurveyResult<A> = RemoteSurveyResult(question: string, answers: seq<A>, date: string)
}
