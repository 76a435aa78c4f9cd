/**
 * The HTTP client: endpoint paths under the `/v1` prefix, the request hook that
 * attaches the stored bearer token, and the response-error hook that ends the
 * session on a 401. The server is not modelled: each call receives the server's
 * answer (`Reply`) as a parameter.
 */
module ApiClient {
  import opened Wrappers
  import opened Web

  const API_BASE_URL := "/v1"
  const AUTHORIZATION := "Authorization"
  const BEARER := "Bearer "
  const UNAUTHORIZED := 401

  const REGISTER_PATH := "/auth/user/register"
  const VALIDATE_ACCOUNT_PREFIX := "/auth/user/validateAccount/"
  const LOGIN_PATH := "/auth/user/token"

  datatype HttpMethod = Post | Put

  /** The parts of an axios request config that the application sets or the hook changes. */
  datatype Config = Config(
    verb: HttpMethod,
    url: string,
    headers: map<string, string>,
    body: Option<map<string, string>>)

  /** An error response: its status and the `message` field of its body, if any. */
  datatype ErrorResponse = ErrorResponse(status: int, message: Option<string>)

  /** An axios error; `response` is absent for transport failures. */
  datatype HttpError = HttpError(response: Option<ErrorResponse>)

  /** What the server (or the transport) answered. */
  datatype Reply<+T> = Ok(data: T) | Failed(error: HttpError)

  /** The body of a token response; both field names occur across the code base. */
  datatype TokenResponse = TokenResponse(token: Option<string>, jwtToken: Option<string>, user: Option<Profile>)

  /** `email` and `password` as the login endpoint expects them. */
  datatype Credentials = Credentials(email: string, password: string)

  /** The `validateAccount` path for a verification code, inserted as is (no URL encoding). */
  function ValidateAccountPath(code: string): (p: string)
    ensures |p| == |VALIDATE_ACCOUNT_PREFIX| + |code|
    ensures p[..|VALIDATE_ACCOUNT_PREFIX|] == VALIDATE_ACCOUNT_PREFIX
    ensures p[|VALIDATE_ACCOUNT_PREFIX|..] == code
  {
    VALIDATE_ACCOUNT_PREFIX + code
  }

  /** The code back from a `validateAccount` path, or `None` for any other path. */
  function CodeOf(path: string): (r: Option<string>)
  {
    if |VALIDATE_ACCOUNT_PREFIX| <= |path| && path[..|VALIDATE_ACCOUNT_PREFIX|] == VALIDATE_ACCOUNT_PREFIX
    then Some(path[|VALIDATE_ACCOUNT_PREFIX|..])
    else None
  }

  /** The path determines the code: distinct codes reach distinct URLs. */
  lemma CodeOfValidateAccountPath(code: string)
    ensures CodeOf(ValidateAccountPath(code)) == Some(code)
  {
  }

  /** No verification code turns the `validateAccount` path into the register or login path. */
  lemma EndpointsDistinct(code: string)
    ensures ValidateAccountPath(code) != REGISTER_PATH
    ensures ValidateAccountPath(code) != LOGIN_PATH
    ensures REGISTER_PATH != LOGIN_PATH
    ensures CodeOf(REGISTER_PATH).None? && CodeOf(LOGIN_PATH).None?
  {
    assert ValidateAccountPath(code)[11] == 'v';
    assert REGISTER_PATH[11] == 'r';
    assert LOGIN_PATH[11] == 't';
  }

  /** The URL axios requests for a path: the base URL followed by the path. */
  function FullUrl(path: string): (u: string)
    ensures |u| == |API_BASE_URL| + |path|
    ensures u[..|API_BASE_URL|] == API_BASE_URL && u[|API_BASE_URL|..] == path
  {
    API_BASE_URL + path
  }

  /**
   * The request hook: when a truthy token is stored, the config gets
   * `Authorization: Bearer <token>`; otherwise it goes out as it came.
   */
  function Authorize(config: Config, storage: map<string, string>): (r: Config)
    ensures r.verb == config.verb && r.url == config.url && r.body == config.body
    ensures Truthy(Get(storage, TOKEN_KEY)) ==>
              AUTHORIZATION in r.headers && r.headers[AUTHORIZATION] == BEARER + storage[TOKEN_KEY]
    ensures !Truthy(Get(storage, TOKEN_KEY)) ==> r == config
    ensures forall h :: h != AUTHORIZATION ==>
              (h in r.headers <==> h in config.headers) &&
              (h in r.headers ==> r.headers[h] == config.headers[h])
  {
    var token := Get(storage, TOKEN_KEY);
    if Truthy(token) then config.(headers := config.headers[AUTHORIZATION := BEARER + token.value])
    else config
  }

  /** Whether the error hook ends the session for this reply: an error response with status 401. */
  predicate IsUnauthorized<T>(reply: Reply<T>)
    ensures reply.Ok? ==> !IsUnauthorized(reply)
    ensures reply.Failed? && reply.error.response.None? ==> !IsUnauthorized(reply)
    ensures reply.Failed? && reply.error.response.Some? ==>
              (IsUnauthorized(reply) <==> reply.error.response.value.status == 401)
  {
    reply.Failed? && reply.error.response.Some? && reply.error.response.value.status == UNAUTHORIZED
  }

  /** Storage after the response hooks ran for `reply`. */
  function StorageAfter<T>(storage: map<string, string>, reply: Reply<T>): (s: map<string, string>)
    ensures IsUnauthorized(reply) ==> s == storage - {TOKEN_KEY}
    ensures !IsUnauthorized(reply) ==> s == storage
  {
    if IsUnauthorized(reply) then storage - {TOKEN_KEY} else storage
  }

  /** Location after the response hooks ran for `reply`. */
  function LocationAfter<T>(location: string, reply: Reply<T>): (l: string)
    ensures IsUnauthorized(reply) ==> l == LOGIN_ROUTE
    ensures !IsUnauthorized(reply) ==> l == location
  {
    if IsUnauthorized(reply) then LOGIN_ROUTE else location
  }

  /**
   * The 401 handler removes the token and nothing else: every other entry, the
   * stored user included, survives it, and no token remains.
   */
  lemma UnauthorizedKeepsOtherEntries<T>(storage: map<string, string>, reply: Reply<T>, key: string)
    requires key != TOKEN_KEY
    ensures key in StorageAfter(storage, reply) <==> key in storage
    ensures key in storage ==> StorageAfter(storage, reply)[key] == storage[key]
    ensures IsUnauthorized(reply) ==> !Truthy(Get(StorageAfter(storage, reply), TOKEN_KEY))
  {
  }

  /** After a 401 no request carries a bearer token any more. */
  lemma NoBearerAfterUnauthorized<T>(config: Config, storage: map<string, string>, reply: Reply<T>)
    requires IsUnauthorized(reply)
    ensures Authorize(config, StorageAfter(storage, reply)) == config
  {
  }

  /** The response-error hook: on a 401, drop the stored token and go to the login page; reject the error unchanged. */
  method OnResponseError(b: Browser, error: HttpError) returns (rejected: HttpError)
    modifies b
    ensures rejected == error
    ensures var r: Reply<()> := Failed(error);
      b.storage == StorageAfter(old(b.storage), r) && b.location == LocationAfter(old(b.location), r)
  {
    if error.response.Some? && error.response.value.status == UNAUTHORIZED {
      b.RemoveItem(TOKEN_KEY);
      b.Navigate(LOGIN_ROUTE);
    }
    rejected := error;
  }

  /**
   * One request through the client: the request hook prepares `sent` from the
   * storage as it is now, the server answers `reply`, the response hooks run.
   * Successful responses pass through unmodified; errors are re-rejected unchanged.
   */
  method Send<T>(b: Browser, config: Config, reply: Reply<T>) returns (sent: Config, result: Reply<T>)
    modifies b
    ensures sent == Authorize(config, old(b.storage))
    ensures result == reply
    ensures b.storage == StorageAfter(old(b.storage), reply)
    ensures b.location == LocationAfter(old(b.location), reply)
  {
    sent := Authorize(config, b.storage);
    match reply {
      case Ok(_) =>
        result := reply;
      case Failed(error) =>
        var rejected := OnResponseError(b, error);
        result := Failed(rejected);
    }
  }

  /** `authApi.register(userData)`: POST to the register path. */
  method Register(b: Browser, userData: map<string, string>, reply: Reply<()>) returns (sent: Config, result: Reply<()>)
    modifies b
    ensures sent == Authorize(Config(Post, FullUrl(REGISTER_PATH), map[], Some(userData)), old(b.storage))
    ensures result == reply
    ensures b.storage == StorageAfter(old(b.storage), reply)
    ensures b.location == LocationAfter(old(b.location), reply)
  {
    sent, result := Send(b, Config(Post, FullUrl(REGISTER_PATH), map[], Some(userData)), reply);
  }

  /** `authApi.validateAccount(code)`: PUT to the code's path, without a body. */
  method ValidateAccount(b: Browser, code: string, reply: Reply<()>) returns (sent: Config, result: Reply<()>)
    modifies b
    ensures sent == Authorize(Config(Put, FullUrl(ValidateAccountPath(code)), map[], None), old(b.storage))
    ensures result == reply
    ensures b.storage == StorageAfter(old(b.storage), reply)
    ensures b.location == LocationAfter(old(b.location), reply)
  {
    sent, result := Send(b, Config(Put, FullUrl(ValidateAccountPath(code)), map[], None), reply);
  }

  /** The JSON body of a login request. */
  function CredentialsBody(c: Credentials): (m: map<string, string>)
    ensures m.Keys == {"email", "password"}
    ensures m["email"] == c.email && m["password"] == c.password
  {
    map["email" := c.email, "password" := c.password]
  }

  /** `authApi.login(credentials)`: POST to the token path. */
  method Login(b: Browser, credentials: Credentials, reply: Reply<TokenResponse>)
    returns (sent: Config, result: Reply<TokenResponse>)
    modifies b
    ensures sent == Authorize(Config(Post, FullUrl(LOGIN_PATH), map[], Some(CredentialsBody(credentials))), old(b.storage))
    ensures result == reply
    ensures b.storage == StorageAfter(old(b.storage), reply)
    ensures b.location == LocationAfter(old(b.location), reply)
  {
    sent, result := Send(b, Config(Post, FullUrl(LOGIN_PATH), map[], Some(CredentialsBody(credentials))), reply);
  }

  /** `error.response?.data?.message`: absent when the call failed without a response. */
  function ServerMessage(error: HttpError): (m: Option<string>)
    ensures error.response.None? ==> m.None?
    ensures error.response.Some? ==> m == error.response.value.message
  {
    if error.response.Some? then error.response.value.message else None
  }

  /** `error.response?.data?.message || fallback`: what a form shows for a failed call. */
  function ErrorText(error: HttpError, fallback: string): (r: string)
    ensures Truthy(ServerMessage(error)) ==> r == ServerMessage(error).value
    ensures !Truthy(ServerMessage(error)) ==> r == fallback
    ensures fallback != "" ==> r != ""
  {
    OrElse(ServerMessage(error), fallback)
  }
}
