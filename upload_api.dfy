/** The plain axios client of frontend/src/services/api.ts (no credentials):
    its response-error interceptor, which turns timeouts and missing
    responses into plain errors, and `uploadFiles`, which maps HTTP 413 to a
    user-facing message. The upload-progress callback is not modelled. */
module UploadApi {
  import opened Base
  import opened Axios
  import opened ClientErrors

  const TIMEOUT_CODE := "ECONNABORTED"
  const TIMEOUT_MESSAGE := "Request timed out. Please try again."
  const NETWORK_MESSAGE := "Network error. Please check your connection."
  const TOO_LARGE_MESSAGE := "File too large. Please try with smaller files."
  const PAYLOAD_TOO_LARGE := 413

  /** The response interceptor: a response passes through, an error becomes
      the timeout error, the network error, or is rethrown as it is. */
  function Intercept<D>(reply: Reply<D>): (r: Result<HttpResponse<D>, Thrown>)
    ensures reply.Answered? ==> r == Ok(reply.response)
    ensures reply.Failed? ==> r.Err?
    // the timeout test comes first, whether or not a response is attached
    ensures reply.Failed? && reply.error.code == Some(TIMEOUT_CODE) ==>
              r.error == PlainError(TIMEOUT_MESSAGE)
    ensures reply.Failed? && reply.error.code != Some(TIMEOUT_CODE) && reply.error.response.None? ==>
              r.error == PlainError(NETWORK_MESSAGE)
    ensures reply.Failed? && reply.error.code != Some(TIMEOUT_CODE) && reply.error.response.Some? ==>
              r.error == FromAxios(reply.error)
  {
    match reply
    case Answered(response) => Ok(response)
    case Failed(error) =>
      if error.code == Some(TIMEOUT_CODE) then Err(PlainError(TIMEOUT_MESSAGE))
      else if error.response.None? then Err(PlainError(NETWORK_MESSAGE))
      else Err(FromAxios(error))
  }

  /** `error.response?.status === 413` for a thrown value. */
  predicate IsPayloadTooLarge(t: Thrown)
    ensures IsPayloadTooLarge(t) <==> t.axios.Some? && ResponseStatus(t.axios.value) == PAYLOAD_TOO_LARGE
    // such an error would normalise with status 413
    ensures IsPayloadTooLarge(t) ==> HandleApiError(t).status == PAYLOAD_TOO_LARGE
  {
    t.axios.Some? && HasStatus(t.axios.value, PAYLOAD_TOO_LARGE)
  }

  /** `uploadFiles(formData)`, given the transport's reply to the merge POST:
      `response.data` on success, the 413 message for a 413, and otherwise the
      interceptor's error unchanged. */
  function UploadFiles<D>(reply: Reply<D>): (r: Result<D, Thrown>)
    ensures reply.Answered? ==> r == Ok(reply.response.data)
    ensures reply.Failed? ==> r.Err?
    ensures r.Err? ==> r.error.axios.None? || !HasStatus(r.error.axios.value, PAYLOAD_TOO_LARGE)
  {
    match Intercept(reply)
    case Ok(response) => Ok(response.data)
    case Err(t) => if IsPayloadTooLarge(t) then Err(PlainError(TOO_LARGE_MESSAGE)) else Err(t)
  }

  /** What `uploadFiles` rejects with, case by case, for a failed POST. */
  lemma {:induction false} UploadFailureClassification<D>(e: AxiosError)
    ensures var r := UploadFiles<D>(Failed(e));
            && (e.code == Some(TIMEOUT_CODE) ==> r == Err(PlainError(TIMEOUT_MESSAGE)))
            && (e.code != Some(TIMEOUT_CODE) && e.response.None? ==> r == Err(PlainError(NETWORK_MESSAGE)))
            && (e.code != Some(TIMEOUT_CODE) && HasStatus(e, PAYLOAD_TOO_LARGE) ==> r == Err(PlainError(TOO_LARGE_MESSAGE)))
            && (e.code != Some(TIMEOUT_CODE) && e.response.Some? && !HasStatus(e, PAYLOAD_TOO_LARGE) ==>
                  r == Err(FromAxios(e)))
  {
    var i := Intercept<D>(Failed(e));
    if e.code != Some(TIMEOUT_CODE) && e.response.Some? {
      assert i == Err(FromAxios(e));
    }
  }

  /** Timeouts and network failures lose their response in the interceptor, so
      `uploadFiles` never reports them as a payload that is too large. */
  lemma TransportFailureIsNeverTooLarge<D>(e: AxiosError)
    requires e.code == Some(TIMEOUT_CODE) || e.response.None?
    ensures UploadFiles<D>(Failed(e)) != Err(PlainError(TOO_LARGE_MESSAGE))
  {
    UploadFailureClassification<D>(e);
  }
}
