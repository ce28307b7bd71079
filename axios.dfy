/** The shapes of axios values that the core reads. A network call is not
    performed: its outcome is an input (`Reply`) chosen by the environment. */
module Axios {
  import opened Base

  /** The fields of an error response body that the client reads
      (`response.data.error`, `response.data.code`). */
  datatype ErrorData = ErrorData(error: Option<string>, code: Option<string>)

  /** The HTTP response attached to a failed request. */
  datatype ErrorResponse = ErrorResponse(status: int, data: Option<ErrorData>)

  /** An axios error: its `code` (such as `ECONNABORTED` for a timeout) and the
      response, absent when no response arrived. */
  datatype AxiosError = AxiosError(code: Option<string>, response: Option<ErrorResponse>)

  /** A successful HTTP response carrying `data` of type `D`. */
  datatype HttpResponse<+D> = HttpResponse(status: int, data: D)

  /** What the transport produced for one sent request. */
  datatype Reply<+D> = Answered(response: HttpResponse<D>) | Failed(error: AxiosError)

  /** `error.response?.status === s` */
  predicate HasStatus(error: AxiosError, s: int)
  {
    error.response.Some? && error.response.value.status == s
  }
}
