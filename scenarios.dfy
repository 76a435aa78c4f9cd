/**
 * Whole flows through the components, in the order a user drives them. Each is a
 * client of the other modules' specifications only.
 */
module Scenarios {
  import opened Wrappers
  import opened Web
  import ApiClient
  import AuthContext
  import LoginForm
  import Home

  /**
   * A visitor with no stored token, under a session provider that mounts first, logs
   * in through the login form with `{email: "a@b.com", password: "x"}` while the
   * server answers `{jwtToken: "t1"}`. The stored token is "t1" and the location is
   * '/home', but the navigation is client-side, so the provider mounted at the start
   * still holds no token and is not authenticated. A dashboard mounted at '/home'
   * does not send the visitor back, the next request carries `Bearer t1`, and only a
   * provider mounted by the next page load is authenticated.
   */
  method LoginFormThenDashboard(b: Browser, codec: JsonCodec, code: string)
    returns (session: AuthContext.AuthSession, next: ApiClient.Config, reloaded: AuthContext.AuthSession)
    requires TOKEN_KEY !in b.storage
    modifies b
    ensures Get(b.storage, TOKEN_KEY) == Some("t1")
    ensures b.location == HOME_ROUTE
    ensures !session.IsAuthenticated()
    ensures ApiClient.AUTHORIZATION in next.headers && next.headers[ApiClient.AUTHORIZATION] == "Bearer t1"
    ensures reloaded.IsAuthenticated()
  {
    session := new AuthContext.AuthSession(b);
    session.RestoreSession();
    var view := new LoginForm.LoginView(b);
    view.HandleChange(LoginForm.EmailField, "a@b.com");
    view.HandleChange(LoginForm.PasswordField, "x");
    view.HandleSubmit(ApiClient.Ok(ApiClient.TokenResponse(None, Some("t1"), None)), codec);
    var home := new Home.HomeView(b);
    home.MountEffect(codec);
    var reply;
    next, reply := ApiClient.ValidateAccount(b, code, ApiClient.Ok(()));
    reloaded := new AuthContext.AuthSession(b);
    reloaded.RestoreSession();
  }

  /** The dashboard opened with no stored token: redirected to '/login', the dashboard never shown. */
  method GuardWithoutToken(b: Browser, codec: JsonCodec) returns (shown: Home.Screen)
    requires TOKEN_KEY !in b.storage
    modifies b
    ensures b.location == LOGIN_ROUTE
    ensures shown == Home.Spinner
  {
    var home := new Home.HomeView(b);
    home.MountEffect(codec);
    shown := home.Shown();
  }

  /** The user the login form stores under 'user' is the user a dashboard mounted next shows. */
  method StoredUserReachesDashboard(b: Browser, codec: JsonCodec, jwt: string, u: Profile)
    returns (shown: Home.Screen)
    requires RoundTrips(codec) && jwt != ""
    modifies b
    ensures shown == Home.Render(Some(u))
  {
    var view := new LoginForm.LoginView(b);
    view.HandleSubmit(ApiClient.Ok(ApiClient.TokenResponse(None, Some(jwt), Some(u))), codec);
    var home := new Home.HomeView(b);
    home.MountEffect(codec);
    shown := home.Shown();
  }

  /** After the session provider's successful login, the next request carries the new token. */
  method SessionLoginThenRequest(b: Browser, email: string, password: string, token: string, code: string)
    returns (session: AuthContext.AuthSession, next: ApiClient.Config)
    requires token != ""
    modifies b
    ensures session.IsAuthenticated()
    ensures ApiClient.AUTHORIZATION in next.headers && next.headers[ApiClient.AUTHORIZATION] == ApiClient.BEARER + token
  {
    session := new AuthContext.AuthSession(b);
    var _ := session.Login(email, password, ApiClient.Ok(ApiClient.TokenResponse(Some(token), None, None)));
    var reply;
    next, reply := ApiClient.ValidateAccount(b, code, ApiClient.Ok(()));
  }

  /** One of the client's three calls, with its arguments. */
  datatype Call =
    | RegisterCall(userData: map<string, string>)
    | ValidateAccountCall(accountCode: string)
    | LoginCall(credentials: ApiClient.Credentials)

  /**
   * A 401 on any of the three calls ends the session: the next page load finds no
   * token, its provider is unauthenticated, and the next request goes out without a
   * bearer.
   */
  method UnauthorizedEndsSession(b: Browser, call: Call, code: string, message: Option<string>)
    returns (reloaded: AuthContext.AuthSession, next: ApiClient.Config)
    modifies b
    ensures b.location == LOGIN_ROUTE
    ensures !reloaded.IsAuthenticated()
    ensures ApiClient.AUTHORIZATION !in next.headers
  {
    var error := ApiClient.HttpError(Some(ApiClient.ErrorResponse(401, message)));
    match call {
      case RegisterCall(userData) =>
        var _, _ := ApiClient.Register(b, userData, ApiClient.Failed(error));
      case ValidateAccountCall(accountCode) =>
        var _, _ := ApiClient.ValidateAccount(b, accountCode, ApiClient.Failed(error));
      case LoginCall(credentials) =>
        var _, _ := ApiClient.Login(b, credentials, ApiClient.Failed(error));
    }
    reloaded := new AuthContext.AuthSession(b);
    reloaded.RestoreSession();
    var reply;
    next, reply := ApiClient.ValidateAccount(b, code, ApiClient.Ok(()));
  }

  /** Logging out of the dashboard, then mounting it again: back to the login page. */
  method LogoutThenDashboard(b: Browser, codec: JsonCodec)
    modifies b
    ensures TOKEN_KEY !in b.storage && USER_KEY !in b.storage
    ensures b.location == LOGIN_ROUTE
  {
    var home := new Home.HomeView(b);
    home.HandleLogout();
    var again := new Home.HomeView(b);
    again.MountEffect(codec);
  }
}
