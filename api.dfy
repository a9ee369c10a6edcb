/**
 * What the browser client sees of the HTTP layer: the JSON shapes it
 * receives and the rejections axios raises. Each request's reply enters
 * the model as a value.
 */
module Api {
  import opened Wrappers
  import opened Text

  /** `PtoBalance` as the client holds it. */
  datatype ClientBalance = ClientBalance(maxHours: int, usedHours: int, remainingHours: int)

  /** `PtoRequest` as the client holds it; `status` is optional there. */
  datatype ClientRequest = ClientRequest(id: int, userId: int, requestDate: string, hours: int,
                                         reason: string, status: Option<string>)

  /** `err.response`: the status and the `error` field of the JSON body, when the server answered at all. */
  datatype ErrorResponse = ErrorResponse(status: int, error: Option<string>)

  /** An axios rejection. */
  datatype HttpError = HttpError(response: Option<ErrorResponse>)

  /** The settled promise of one request. */
  datatype Reply<+T> = Ok(data: T) | Err(failure: HttpError)

  /** `err.response?.data?.error || fallback`. */
  function ErrorText(f: HttpError, fallback: string): (s: string)
    ensures f.response.Some? && Truthy(f.response.value.error) ==> s == f.response.value.error.value
    ensures s == fallback || (f.response.Some? && f.response.value.error == Some(s) && s != "")
    ensures fallback != "" ==> s != ""
  {
    if f.response.Some? && Truthy(f.response.value.error) then f.response.value.error.value else fallback
  }

  /** The response interceptor's test: `error.response && error.response.status === 401`. */
  predicate Unauthorized(f: HttpError) {
    f.response.Some? && f.response.value.status == 401
  }
}
