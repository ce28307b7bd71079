/** `AuthService` of frontend/src/services/api/auth.service.ts. Each of its
    calls goes through the `ApiService` interceptors (so a 401 on it takes the
    refresh path too); around the call, login writes both tokens and logout
    removes them once the POST has succeeded. */
module AuthService {
  import opened Base
  import opened Axios
  import opened ClientErrors
  import opened ApiGateway

  datatype User = User(id: string, email: string, name: string, createdAt: string)

  /** The body of a successful login. */
  datatype AuthResponse = AuthResponse(token: string, refreshToken: string, user: User)

  function LoginRequest(email: string, password: string): RequestConfig
  {
    RequestConfig("POST", "/auth/login", Json([("email", Some(email)), ("password", Some(password))]), None, false)
  }

  const LogoutRequest := RequestConfig("POST", "/auth/logout", NoBody, None, false)
  const MeRequest := RequestConfig("GET", "/auth/me", NoBody, None, false)

  /** `login(email, password)`: what it settles with and the storage after it. */
  function LoginEffect(s: Storage, email: string, password: string, first: Reply<AuthResponse>,
                 refresh: RefreshOutcome, resend: Reply<AuthResponse>): (r: (Result<AuthResponse, ApiError>, Storage))
    // a login that resolves ends with both tokens from its own response stored
    ensures r.0.Ok? ==> r.1 == Storage(Some(r.0.value.token), Some(r.0.value.refreshToken), s.location)
  {
    var ex := Transact(s, LoginRequest(email, password), first, refresh, resend);
    match ex.outcome
    case Resolved(response) =>
      (Ok(response.data),
       ex.storage.(accessToken := Some(response.data.token), refreshToken := Some(response.data.refreshToken)))
    case Rejected(reason) => (Err(reason), ex.storage)
  }

  /** `logout()` */
  function LogoutEffect(s: Storage, first: Reply<()>, refresh: RefreshOutcome, resend: Reply<()>): (r: (Result<(), ApiError>, Storage))
    // a logout that resolves ends with no token stored
    ensures r.0.Ok? ==> r.1 == Storage(None, None, s.location)
    // a logout that is rejected without a refresh keeps both tokens
    ensures r.0.Err? && !StartsRefresh(s, LogoutRequest, first) ==> r.1 == s
  {
    var ex := Transact(s, LogoutRequest, first, refresh, resend);
    match ex.outcome
    case Resolved(_) => (Ok(()), ex.storage.(accessToken := None, refreshToken := None))
    case Rejected(reason) => (Err(reason), ex.storage)
  }

  /** `getCurrentUser()` */
  function CurrentUserEffect(s: Storage, first: Reply<User>, refresh: RefreshOutcome, resend: Reply<User>): (r: (Result<User, ApiError>, Storage))
    // the refresh token is never written: kept, or cleared with the redirect
    ensures r.1.refreshToken == s.refreshToken || r.1 == Storage(None, None, Some(SIGNIN))
    // a user that is returned leaves the refresh token and the location alone
    ensures r.0.Ok? ==> r.1.refreshToken == s.refreshToken && r.1.location == s.location
  {
    var ex := Transact(s, MeRequest, first, refresh, resend);
    match ex.outcome
    case Resolved(response) => (Ok(response.data), ex.storage)
    case Rejected(reason) => (Err(reason), ex.storage)
  }

  /** A login that the server answers stores `data.token` as the access token
      and `data.refreshToken` as the refresh token and returns `data`
      unchanged. */
  lemma LoginSuccessStoresTokens(s: Storage, email: string, password: string, data: AuthResponse,
                                 status: int, refresh: RefreshOutcome, resend: Reply<AuthResponse>)
    ensures var (r, s') := LoginEffect(s, email, password, Answered(HttpResponse(status, data)), refresh, resend);
            r == Ok(data) && s' == Storage(Some(data.token), Some(data.refreshToken), s.location)
  {
    NoRefreshPath(s, LoginRequest(email, password), Answered(HttpResponse(status, data)), refresh, resend);
  }

  /** A login POST that fails with anything but a 401 leaves the storage
      unchanged. (A 401 on the login POST goes through the refresh path.) */
  lemma LoginFailureKeepsStorage(s: Storage, email: string, password: string, e: AxiosError,
                                 refresh: RefreshOutcome, resend: Reply<AuthResponse>)
    requires !HasStatus(e, UNAUTHORIZED)
    ensures var (r, s') := LoginEffect(s, email, password, Failed(e), refresh, resend);
            r == Err(HandleApiError(FromAxios(e))) && s' == s
  {
    NoRefreshPath(s, LoginRequest(email, password), Failed(e), refresh, resend);
  }

  /** Logout removes both tokens only after its POST succeeds; a POST that
      fails with anything but a 401 leaves both tokens in place. */
  lemma LogoutClearsOnlyOnSuccess(s: Storage, first: Reply<()>, refresh: RefreshOutcome, resend: Reply<()>)
    ensures var (r, s') := LogoutEffect(s, first, refresh, resend);
            r.Ok? ==> s'.accessToken.None? && s'.refreshToken.None?
    ensures first.Answered? ==> LogoutEffect(s, first, refresh, resend).1 == s.(accessToken := None, refreshToken := None)
    ensures first.Failed? && !HasStatus(first.error, UNAUTHORIZED) ==>
              LogoutEffect(s, first, refresh, resend) == (Err(HandleApiError(FromAxios(first.error))), s)
  {
    if first.Answered? || !HasStatus(first.error, UNAUTHORIZED) {
      NoRefreshPath(s, LogoutRequest, first, refresh, resend);
    }
  }

  /** `getCurrentUser` writes no token of its own: its storage effect is the
      gateway's, and none at all unless its request met a first 401. */
  lemma GetCurrentUserReadsOnly(s: Storage, first: Reply<User>, refresh: RefreshOutcome, resend: Reply<User>)
    ensures CurrentUserEffect(s, first, refresh, resend).1 == Transact(s, MeRequest, first, refresh, resend).storage
    ensures !StartsRefresh(s, MeRequest, first) ==> CurrentUserEffect(s, first, refresh, resend).1 == s
  {
    if !StartsRefresh(s, MeRequest, first) {
      NoRefreshPath(s, MeRequest, first, refresh, resend);
    }
  }

  /** `authService.login(...)` on the client object. */
  method Login(api: ApiService, email: string, password: string, first: Reply<AuthResponse>,
                   refresh: RefreshOutcome, resend: Reply<AuthResponse>)
    returns (r: Result<AuthResponse, ApiError>)
    modifies api
    ensures (r, api.State()) == LoginEffect(old(api.State()), email, password, first, refresh, resend)
  {
    var outcome, _ := api.Request(LoginRequest(email, password), first, refresh, resend);
    match outcome
    case Resolved(response) =>
      api.accessToken := Some(response.data.token);
      api.refreshToken := Some(response.data.refreshToken);
      r := Ok(response.data);
    case Rejected(reason) =>
      r := Err(reason);
  }

  /** `authService.logout()` on the client object. */
  method Logout(api: ApiService, first: Reply<()>, refresh: RefreshOutcome, resend: Reply<()>)
    returns (r: Result<(), ApiError>)
    modifies api
    ensures (r, api.State()) == LogoutEffect(old(api.State()), first, refresh, resend)
  {
    var outcome, _ := api.Request(LogoutRequest, first, refresh, resend);
    match outcome
    case Resolved(_) =>
      api.accessToken := None;
      api.refreshToken := None;
      r := Ok(());
    case Rejected(reason) =>
      r := Err(reason);
  }

  /** `authService.getCurrentUser()` on the client object. */
  method GetCurrentUser(api: ApiService, first: Reply<User>, refresh: RefreshOutcome, resend: Reply<User>)
    returns (r: Result<User, ApiError>)
    modifies api
    ensures (r, api.State()) == CurrentUserEffect(old(api.State()), first, refresh, resend)
  {
    var outcome, _ := api.Request(MeRequest, first, refresh, resend);
    match outcome
    case Resolved(response) => r := Ok(response.data);
    case Rejected(reason) => r := Err(reason);
  }
}
