/** The authenticated axios client of frontend/src/services/api/base.ts
    (`ApiService` and its two interceptors). Browser storage is two optional
    tokens and `window.location.href` an optional location. One request is
    modelled at a time; the network is an oracle that supplies the reply to the
    first send, the outcome of the refresh POST and the reply to the resend. */
module ApiGateway {
  import opened Base
  import opened Axios
  import opened ClientErrors

  const REFRESH_URL := "/auth/refresh"
  const SIGNIN := "/signin"
  const UNAUTHORIZED := 401

  /** A JSON request body (an object of optional strings), or none. */
  datatype Body = NoBody | Json(fields: seq<(string, Option<string>)>)

  /** An axios request config: what is sent, its `Authorization` header, and
      the `_retry` mark the response handler puts on it. */
  datatype RequestConfig = RequestConfig(verb: string, url: string, body: Body,
                                         authorization: Option<string>, retry: bool)

  /** The browser state the client touches: the stored access and refresh
      tokens and the last location it assigned. */
  datatype Storage = Storage(accessToken: Option<string>, refreshToken: Option<string>, location: Option<string>)

  /** How the refresh POST settled: the new access token (`response.data.token`),
      or the value it was rejected with (itself normalised by this client). */
  datatype RefreshOutcome = Refreshed(token: string) | RefreshFailed(reason: ApiError)

  /** How a request settles for its caller. */
  datatype Outcome<+D> = Resolved(response: HttpResponse<D>) | Rejected(reason: ApiError)

  /** One request's effect: its outcome, the storage afterwards, and every
      config handed to the transport, in order. */
  datatype Exchange<+D> = Exchange(outcome: Outcome<D>, storage: Storage, sent: seq<RequestConfig>)

  /** The decision of the response-error handler. */
  datatype ErrorStep = StartRefresh | Reject(reason: ApiError)

  function Bearer(token: string): string
  {
    "Bearer " + token
  }

  /** The request interceptor: `Authorization: Bearer <token>` iff an access
      token is stored (a truthy string); otherwise the config is untouched. */
  function Authorize(config: RequestConfig, accessToken: Option<string>): (c: RequestConfig)
    ensures Truthy(accessToken) ==> c.authorization == Some(Bearer(accessToken.value))
    ensures !Truthy(accessToken) ==> c == config
    ensures c.(authorization := config.authorization) == config
  {
    if Truthy(accessToken) then config.(authorization := Some(Bearer(accessToken.value))) else config
  }

  /** The response-error handler's test: a 401 on a request not yet marked
      starts a refresh; anything else is rejected as `handleApiError(error)`. */
  function OnError(error: AxiosError, request: RequestConfig): (step: ErrorStep)
    ensures step.StartRefresh? <==> HasStatus(error, UNAUTHORIZED) && !request.retry
    ensures step.Reject? ==> step.reason == HandleApiError(FromAxios(error))
  {
    if HasStatus(error, UNAUTHORIZED) && !request.retry then StartRefresh
    else Reject(HandleApiError(FromAxios(error)))
  }

  /** `POST /auth/refresh` with body `{ refreshToken }`. */
  function RefreshRequest(refreshToken: Option<string>): RequestConfig
  {
    RequestConfig("POST", REFRESH_URL, Json([("refreshToken", refreshToken)]), None, false)
  }

  /** The whole life of one request through both interceptors. */
  function Transact<D>(s: Storage, config: RequestConfig, first: Reply<D>,
                       refresh: RefreshOutcome, resend: Reply<D>): (ex: Exchange<D>)
    // the request goes out first, with the stored token attached
    ensures 1 <= |ex.sent| <= 3 && ex.sent[0] == Authorize(config, s.accessToken)
    // the refresh token is never overwritten: it is kept, or everything is
    // cleared and the browser sent to the sign-in page
    ensures ex.storage.refreshToken == s.refreshToken || ex.storage == Storage(None, None, Some(SIGNIN))
    // a request that resolves leaves the refresh token and the location alone
    ensures ex.outcome.Resolved? ==> ex.storage.refreshToken == s.refreshToken && ex.storage.location == s.location
  {
    var request := Authorize(config, s.accessToken);
    match first
    case Answered(response) => Exchange(Resolved(response), s, [request])
    case Failed(error) =>
      match OnError(error, request)
      case Reject(reason) => Exchange(Rejected(reason), s, [request])
      case StartRefresh =>
        var marked := request.(retry := true);
        var refreshCall := Authorize(RefreshRequest(s.refreshToken), s.accessToken);
        match refresh
        case RefreshFailed(reason) =>
          Exchange(Rejected(reason), Storage(None, None, Some(SIGNIN)), [request, refreshCall])
        case Refreshed(token) =>
          var renewed := s.(accessToken := Some(token));
          var again := Authorize(marked.(authorization := Some(Bearer(token))), renewed.accessToken);
          match resend
          case Answered(response) => Exchange(Resolved(response), renewed, [request, refreshCall, again])
          case Failed(error') =>
            Exchange(Rejected(OnError(error', again).reason), renewed, [request, refreshCall, again])
  }

  /** Whether the handler refreshes for this first reply. */
  predicate StartsRefresh<D>(s: Storage, config: RequestConfig, first: Reply<D>)
  {
    first.Failed? && OnError(first.error, Authorize(config, s.accessToken)).StartRefresh?
  }

  /** A config sends the same request as `config` (verb, url and body). */
  predicate SameRequest(c: RequestConfig, config: RequestConfig)
  {
    c.verb == config.verb && c.url == config.url && c.body == config.body
  }

  /** The number of sends of `config`'s request in `sent`. */
  function Sends(sent: seq<RequestConfig>, config: RequestConfig): nat
  {
    if sent == [] then 0
    else (if SameRequest(sent[0], config) then 1 else 0) + Sends(sent[1..], config)
  }

  /** Successful responses pass through; errors other than a first 401 are
      rejected as `handleApiError(error)`. Either way nothing else happens. */
  lemma NoRefreshPath<D>(s: Storage, config: RequestConfig, first: Reply<D>,
                         refresh: RefreshOutcome, resend: Reply<D>)
    requires !StartsRefresh(s, config, first)
    ensures var ex := Transact(s, config, first, refresh, resend);
            && ex.storage == s
            && ex.sent == [Authorize(config, s.accessToken)]
            && (first.Answered? ==> ex.outcome == Resolved(first.response))
            && (first.Failed? ==> ex.outcome == Rejected(HandleApiError(FromAxios(first.error))))
  {
  }

  /** A 401 on a request already marked `_retry` is rejected without a
      refresh. */
  lemma RetriedUnauthorizedRejected<D>(s: Storage, config: RequestConfig, e: AxiosError,
                                       refresh: RefreshOutcome, resend: Reply<D>)
    requires config.retry && HasStatus(e, UNAUTHORIZED)
    ensures Transact(s, config, Failed(e), refresh, resend)
              == Exchange(Rejected(HandleApiError(FromAxios(e))), s, [Authorize(config, s.accessToken)])
  {
  }

  /** A successful refresh: exactly one refresh POST carrying the stored
      refresh token, the new access token overwrites the stored one, the
      refresh token and location stay, and the original request is resent once,
      marked and with the new bearer header; its outcome is the caller's. */
  lemma RefreshSuccess<D>(s: Storage, config: RequestConfig, e: AxiosError, token: string, resend: Reply<D>)
    requires HasStatus(e, UNAUTHORIZED) && !config.retry
    ensures var ex := Transact(s, config, Failed(e), Refreshed(token), resend);
            && ex.storage == Storage(Some(token), s.refreshToken, s.location)
            && |ex.sent| == 3
            && ex.sent[1].url == REFRESH_URL && ex.sent[1].body == Json([("refreshToken", s.refreshToken)])
            && SameRequest(ex.sent[2], config) && ex.sent[2].retry
            && ex.sent[2].authorization == Some(Bearer(token))
            && (resend.Answered? ==> ex.outcome == Resolved(resend.response))
            && (resend.Failed? ==> ex.outcome == Rejected(HandleApiError(FromAxios(resend.error))))
  {
  }

  /** A failed refresh: both tokens are removed, the location becomes
      `/signin`, the refresh error is the rejection and nothing is resent. */
  lemma RefreshFailure<D>(s: Storage, config: RequestConfig, e: AxiosError, reason: ApiError, resend: Reply<D>)
    requires HasStatus(e, UNAUTHORIZED) && !config.retry
    ensures var ex := Transact(s, config, Failed(e), RefreshFailed(reason), resend);
            && ex.storage == Storage(None, None, Some(SIGNIN))
            && ex.outcome == Rejected(reason)
            && |ex.sent| == 2 && ex.sent[1].url == REFRESH_URL
  {
  }

  /** A failure of the resent request reaches the caller normalised, and the
      tokens stay as the refresh left them: nothing is cleared. */
  lemma ResendFailureKeepsTokens<D>(s: Storage, config: RequestConfig, e: AxiosError, token: string, e': AxiosError)
    requires HasStatus(e, UNAUTHORIZED) && !config.retry
    ensures var ex := Transact<D>(s, config, Failed(e), Refreshed(token), Failed(e'));
            && ex.outcome == Rejected(HandleApiError(FromAxios(e')))
            && ex.storage.accessToken == Some(token) && ex.storage.refreshToken == s.refreshToken
            && ex.storage.location == s.location
  {
  }

  /** The original request is resent at most once: it is sent once, plus one
      resend exactly when a first 401 led to a successful refresh. */
  lemma {:induction false} ResentAtMostOnce<D>(s: Storage, config: RequestConfig, first: Reply<D>,
                                               refresh: RefreshOutcome, resend: Reply<D>)
    requires config.url != REFRESH_URL
    ensures var ex := Transact(s, config, first, refresh, resend);
            Sends(ex.sent, config) == if StartsRefresh(s, config, first) && refresh.Refreshed? then 2 else 1
  {
    var ex := Transact(s, config, first, refresh, resend);
    var request := Authorize(config, s.accessToken);
    assert SameRequest(request, config);
    assert Sends([], config) == 0;
    if StartsRefresh(s, config, first) {
      var refreshCall := Authorize(RefreshRequest(s.refreshToken), s.accessToken);
      assert !SameRequest(refreshCall, config);
      assert ex.sent[0] == request && ex.sent[1] == refreshCall;
      if refresh.Refreshed? {
        assert SameRequest(ex.sent[2], config);
        assert ex.sent[1..][1..][1..] == [];
        assert Sends(ex.sent[1..][1..], config) == 1;
      } else {
        assert ex.sent[1..][1..] == [];
      }
      assert Sends(ex.sent[1..], config) == Sends(ex.sent[1..][1..], config);
    } else {
      assert ex.sent == [request];
      assert ex.sent[1..] == [];
    }
  }

  /** The error a refresh POST fails with when the server answers `status`. */
  function RefreshError(status: int): AxiosError
  {
    AxiosError(None, Some(ErrorResponse(status, None)))
  }

  /** The response-error handler with the refresh request itself kept out of
      the refresh path. */
  function OnErrorGuarded(error: AxiosError, request: RequestConfig): (step: ErrorStep)
    ensures step.StartRefresh? <==> HasStatus(error, UNAUTHORIZED) && !request.retry && request.url != REFRESH_URL
    ensures request.url != REFRESH_URL ==> step == OnError(error, request)
  {
    if request.url == REFRESH_URL then Reject(HandleApiError(FromAxios(error)))
    else OnError(error, request)
  }

  /** The number of refresh POSTs one first 401 leads to when the server
      answers the successive refresh POSTs with `statuses`; `guarded` picks
      `OnErrorGuarded` over the handler as written. A refresh POST is a new
      request that is not marked `_retry`, so the handler as written treats a
      401 on it as a first 401 and starts another refresh. */
  function RefreshPosts(s: Storage, statuses: seq<int>, guarded: bool): nat
  {
    if statuses == [] then 0
    else
      var refreshCall := Authorize(RefreshRequest(s.refreshToken), s.accessToken);
      var step := if guarded then OnErrorGuarded(RefreshError(statuses[0]), refreshCall)
                  else OnError(RefreshError(statuses[0]), refreshCall);
      if step.StartRefresh? then 1 + RefreshPosts(s, statuses[1..], guarded) else 1
  }

  /** As written, `k` successive 401s on `/auth/refresh` give `k + 1` refresh
      POSTs: no bound holds for the chain. */
  lemma {:induction false} NestedRefreshUnbounded(s: Storage, k: nat)
    ensures RefreshPosts(s, seq(k, _ => UNAUTHORIZED) + [200], false) == k + 1
  {
    var statuses := seq(k, _ => UNAUTHORIZED) + [200];
    if k > 0 {
      assert statuses[0] == UNAUTHORIZED;
      assert statuses[1..] == seq(k - 1, _ => UNAUTHORIZED) + [200];
      NestedRefreshUnbounded(s, k - 1);
    } else {
      assert statuses == [200];
      assert statuses[1..] == [];
    }
  }

  /** With the guard, a first 401 leads to exactly one refresh POST, whatever
      the server answers it. */
  lemma GuardedRefreshOnce(s: Storage, statuses: seq<int>)
    requires statuses != []
    ensures RefreshPosts(s, statuses, true) == 1
  {
  }

  /** The `ApiService` object over the browser state. */
  class ApiService {
    var accessToken: Option<string>
    var refreshToken: Option<string>
    var location: Option<string>

    function State(): Storage
      reads this
    {
      Storage(accessToken, refreshToken, location)
    }

    constructor (initial: Storage)
      ensures State() == initial
    {
      accessToken := initial.accessToken;
      refreshToken := initial.refreshToken;
      location := initial.location;
    }

    /** The request interceptor, reading the stored access token. */
    method AttachToken(config: RequestConfig) returns (c: RequestConfig)
      ensures c == Authorize(config, accessToken)
    {
      c := config;
      if accessToken.Some? && accessToken.value != "" {
        c := c.(authorization := Some(Bearer(accessToken.value)));
      }
    }

    /** One request through both interceptors; `sent` lists what went out. */
    method Request<D>(config: RequestConfig, first: Reply<D>, refresh: RefreshOutcome, resend: Reply<D>)
      returns (outcome: Outcome<D>, sent: seq<RequestConfig>)
      modifies this
      ensures Exchange(outcome, State(), sent) == Transact(old(State()), config, first, refresh, resend)
    {
      var request := AttachToken(config);
      sent := [request];
      match first
      case Answered(response) =>
        outcome := Resolved(response);
      case Failed(error) =>
        var step := OnError(error, request);
        if step.Reject? {
          outcome := Rejected(step.reason);
          return;
        }
        request := request.(retry := true);
        var refreshCall := AttachToken(RefreshRequest(refreshToken));
        sent := sent + [refreshCall];
        match refresh
        case Refreshed(token) =>
          accessToken := Some(token);
          request := request.(authorization := Some(Bearer(token)));
          request := AttachToken(request);
          sent := sent + [request];
          match resend {
            case Answered(response) =>
              outcome := Resolved(response);
            case Failed(error') =>
              outcome := Rejected(OnError(error', request).reason);
          }
        case RefreshFailed(reason) =>
          accessToken := None;
          refreshToken := None;
          location := Some(SIGNIN);
          outcome := Rejected(reason);
    }
  }
}
