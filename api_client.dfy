/**
 * The HTTP client's interceptors: every outgoing request gets the session
 * token as a bearer header, except the login endpoints; every failed
 * response with status 401 forgets the session.
 */
module ApiClient {
  import opened Base
  import opened AuthStorage

  const AuthorizationHeader: string := "Authorization"
  const LoginPath: string := "/auth/login"

  /** The config of an outgoing request; the interceptor changes its headers in place. */
  class RequestConfig {
    const url: Option<string>
    var headers: map<string, string>

    constructor (u: Option<string>, h: map<string, string>)
      ensures url == u && headers == h
    {
      url := u;
      headers := h;
    }
  }

  /**
   * The header is due: a non-empty token, and a URL that is not a login
   * endpoint. A request without a URL still gets it; the login endpoint
   * never does, whatever the token.
   */
  function AuthorizationDue(token: Option<string>, url: Option<string>): (r: bool)
    ensures r ==> Present(token)
    ensures url.Some? && Contains(url.value, LoginPath) ==> !r
    ensures Present(token) && url.None? ==> r
    ensures Present(token) && url.Some? && !Contains(url.value, LoginPath) ==> r
  {
    Present(token) && !(url.Some? && Contains(url.value, LoginPath))
  }

  /** The request interceptor, with the session token read from `st`. */
  method AddAuthorization(config: RequestConfig, st: LocalStorage)
    modifies config
    ensures AuthorizationDue(GetToken(st), config.url) ==>
      config.headers == old(config.headers)[AuthorizationHeader := "Bearer " + GetToken(st).value]
    ensures !AuthorizationDue(GetToken(st), config.url) ==> config.headers == old(config.headers)
  {
    var token := GetToken(st);
    if Present(token) && !(config.url.Some? && Contains(config.url.value, LoginPath)) {
      config.headers := config.headers[AuthorizationHeader := "Bearer " + token.value];
    }
  }

  /** A failed response; `status` is absent when no response arrived. */
  datatype HttpError = HttpError(status: Option<int>, message: string)

  /** The error interceptor: a 401 clears the session; the error is rejected as it came. */
  method OnResponseError(err: HttpError, st: LocalStorage) returns (rejected: HttpError)
    modifies st
    ensures rejected == err
    ensures err.status == Some(401) ==> st.items == old(st.items) - {AuthTokenKey, UserDataKey}
    ensures err.status != Some(401) ==> st.items == old(st.items)
    ensures GetSpotifyToken(st) == old(GetSpotifyToken(st))
  {
    if err.status == Some(401) {
      ClearAuth(st);
    }
    rejected := err;
  }
}
