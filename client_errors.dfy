/** The front end's error normalisation (frontend/src/utils/error-handling.ts):
    the `AppError` class with its defaults and `handleApiError`, which turns any
    thrown value into the `{message, code, status}` shape shown to the user. */
module ClientErrors {
  import opened Base
  import opened Axios

  const GENERIC_MESSAGE := "An unexpected error occurred"
  const UNKNOWN_ERROR := "UNKNOWN_ERROR"
  const API_ERROR := "API_ERROR"
  const DEFAULT_STATUS := 500

  /** An instance of the front end's `AppError` class. */
  datatype AppError = AppError(message: string, code: string, status: int)

  /** The normalised error shape (`ApiError`). */
  datatype ApiError = ApiError(message: string, code: string, status: int)

  /** A thrown value as `handleApiError` inspects it: whether
      `axios.isAxiosError` holds of it (and then its axios fields), whether it is
      an `instanceof AppError` (and then its fields), and its own message. */
  datatype Thrown = Thrown(axios: Option<AxiosError>, app: Option<AppError>, message: string)

  /** An error raised by axios. */
  function FromAxios(e: AxiosError): Thrown
  {
    Thrown(Some(e), None, "")
  }

  /** An `AppError` thrown by application code. */
  function FromApp(a: AppError): Thrown
  {
    Thrown(None, Some(a), a.message)
  }

  /** `new Error(message)`: neither an axios error nor an `AppError`. */
  function PlainError(message: string): Thrown
  {
    Thrown(None, None, message)
  }

  /** `new AppError(message, code?, status?)`; an argument given as `None` is
      left out, so the constructor's default applies. */
  function NewAppError(message: string, code: Option<string>, status: Option<int>): (e: AppError)
    ensures e.message == message
    ensures code.Some? ==> e.code == code.value
    ensures status.Some? ==> e.status == status.value
    ensures code.None? ==> e.code == UNKNOWN_ERROR
    ensures status.None? ==> e.status == DEFAULT_STATUS
  {
    AppError(message,
             if code.Some? then code.value else UNKNOWN_ERROR,
             if status.Some? then status.value else DEFAULT_STATUS)
  }

  /** `response?.data?.error` */
  function DataError(e: AxiosError): Option<string>
  {
    if e.response.Some? && e.response.value.data.Some? then e.response.value.data.value.error else None
  }

  /** `response?.data?.code` */
  function DataCode(e: AxiosError): Option<string>
  {
    if e.response.Some? && e.response.value.data.Some? then e.response.value.data.value.code else None
  }

  /** `response?.status`, with an absent response read as the falsy 0. */
  function ResponseStatus(e: AxiosError): int
  {
    if e.response.Some? then e.response.value.status else 0
  }

  /** `handleApiError(error)`: the axios test first, then the `AppError` test,
      then a constant fallback. */
  function HandleApiError(error: Thrown): (r: ApiError)
    // an axios error: the server's fields, each with its own fallback
    ensures error.axios.Some? ==>
              && (Truthy(DataError(error.axios.value)) ==> r.message == DataError(error.axios.value).value)
              && (!Truthy(DataError(error.axios.value)) ==> r.message == GENERIC_MESSAGE)
              && (Truthy(DataCode(error.axios.value)) ==> r.code == DataCode(error.axios.value).value)
              && (!Truthy(DataCode(error.axios.value)) ==> r.code == API_ERROR)
              && (ResponseStatus(error.axios.value) != 0 ==> r.status == ResponseStatus(error.axios.value))
              && (ResponseStatus(error.axios.value) == 0 ==> r.status == DEFAULT_STATUS)
    // an AppError that is not an axios error: copied verbatim
    ensures error.axios.None? && error.app.Some? ==>
              r == ApiError(error.app.value.message, error.app.value.code, error.app.value.status)
    // anything else: one constant, whatever the value's own message says
    ensures error.axios.None? && error.app.None? ==>
              r == ApiError(GENERIC_MESSAGE, UNKNOWN_ERROR, DEFAULT_STATUS)
    // outside the AppError case every field is filled in
    ensures error.axios.Some? || error.app.None? ==> r.message != "" && r.code != "" && r.status != 0
  {
    if error.axios.Some? then
      var e := error.axios.value;
      ApiError(OrElse(DataError(e), GENERIC_MESSAGE),
               OrElse(DataCode(e), API_ERROR),
               OrElseNumber(ResponseStatus(e), DEFAULT_STATUS))
    else if error.app.Some? then
      ApiError(error.app.value.message, error.app.value.code, error.app.value.status)
    else
      ApiError(GENERIC_MESSAGE, UNKNOWN_ERROR, DEFAULT_STATUS)
  }

  /** A value that passes both tests is treated as an axios error: its
      `AppError` fields are ignored. */
  lemma AxiosTakesPriority(e: AxiosError, a: AppError, message: string)
    ensures HandleApiError(Thrown(Some(e), Some(a), message)) == HandleApiError(FromAxios(e))
  {
  }

  /** An `AppError` built with its defaults normalises to those defaults, and
      any `AppError` survives normalisation field for field. */
  lemma AppErrorRoundTrip(message: string, code: Option<string>, status: Option<int>)
    ensures var a := NewAppError(message, code, status);
            HandleApiError(FromApp(a)) == ApiError(a.message, a.code, a.status)
    ensures HandleApiError(FromApp(NewAppError(message, None, None)))
              == ApiError(message, UNKNOWN_ERROR, DEFAULT_STATUS)
  {
  }

  /** A network failure (no response at all) normalises to the generic
      message, `API_ERROR` and status 500. */
  lemma NoResponseNormalisation(code: Option<string>)
    ensures HandleApiError(FromAxios(AxiosError(code, None)))
              == ApiError(GENERIC_MESSAGE, API_ERROR, DEFAULT_STATUS)
  {
  }
}
