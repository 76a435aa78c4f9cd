/**
 * The authentication provider: the in-memory session `{user, token, isLoading,
 * error}` beside the persisted `'token'` entry, and the operations `register`,
 * `validateAccount`, `login` and `logout`. Each asynchronous operation is one
 * method run to completion; the server's answer is a parameter.
 */
module AuthContext {
  import opened Wrappers
  import opened Web
  import ApiClient

  const REGISTER_FALLBACK := "Une erreur est survenue lors de l'inscription"
  const VALIDATE_FALLBACK := "Une erreur est survenue lors de la validation du compte"
  const LOGIN_FALLBACK := "Identifiants incorrects"

  /** How an operation's promise settles: resolved, or rejected with the client's error re-thrown. */
  datatype Outcome = Resolved | Rejected(error: ApiClient.HttpError)

  /** `isAuthenticated: !!token`: authenticated exactly when a non-empty token is held. */
  predicate Authenticated(token: Option<string>)
    ensures Authenticated(token) <==> (token.Some? && |token.value| > 0)
  {
    Truthy(token)
  }

  /** What the promise of `register` or `validateAccount` does with the client's result. */
  function Settle<T>(reply: ApiClient.Reply<T>): (o: Outcome)
    ensures o.Resolved? <==> reply.Ok?
    ensures reply.Failed? ==> o == Rejected(reply.error)
  {
    if reply.Ok? then Resolved else Rejected(reply.error)
  }

  class AuthSession {
    const browser: Browser
    var user: Option<Profile>
    var token: Option<string>
    var isLoading: bool
    var error: Option<string>

    /** Mounting the provider: the token state starts from the stored `'token'` entry. */
    constructor (b: Browser)
      ensures browser == b
      ensures token == b.GetItem(TOKEN_KEY)
      ensures user.None? && !isLoading && error.None?
    {
      browser := b;
      user := None;
      token := b.GetItem(TOKEN_KEY);
      isLoading := false;
      error := None;
    }

    /** `isAuthenticated`, derived from the token alone. */
    predicate IsAuthenticated()
      reads this
      ensures IsAuthenticated() <==> (token.Some? && |token.value| > 0)
    {
      Authenticated(token)
    }

    /**
     * The mount effect: a truthy stored token is copied into the token state. When
     * storage did not change since the constructor, the token state already equals it
     * and the effect changes nothing.
     */
    method RestoreSession()
      modifies this`token
      ensures var stored := old(browser.GetItem(TOKEN_KEY));
        token == (if Truthy(stored) then stored else old(token))
      ensures old(token) == browser.GetItem(TOKEN_KEY) ==> token == old(token)
    {
      var stored := browser.GetItem(TOKEN_KEY);
      if Truthy(stored) {
        token := stored;
      }
    }

    /**
     * `register(userData)`: loading and error are reset, the client is called, loading
     * is cleared on both paths; on failure the error is the server's message or the
     * fallback and the failure is re-thrown. Token, user and storage are the session's
     * only on the client's 401 path (which removes the stored token).
     */
    method Register(userData: map<string, string>, reply: ApiClient.Reply<()>) returns (o: Outcome)
      modifies this, browser
      ensures o == Settle(reply)
      ensures token == old(token) && user == old(user) && !isLoading
      ensures error == (if reply.Ok? then None else Some(ApiClient.ErrorText(reply.error, REGISTER_FALLBACK)))
      ensures browser.storage == ApiClient.StorageAfter(old(browser.storage), reply)
      ensures browser.location == ApiClient.LocationAfter(old(browser.location), reply)
    {
      isLoading := true;
      error := None;
      var _, result := ApiClient.Register(browser, userData, reply);
      match result {
        case Ok(_) =>
          isLoading := false;
          o := Resolved;
        case Failed(err) =>
          isLoading := false;
          error := Some(ApiClient.ErrorText(err, REGISTER_FALLBACK));
          o := Rejected(err);
      }
    }

    /** `validateAccount(code)`: the same pattern as `register`; validation issues no token. */
    method ValidateAccount(code: string, reply: ApiClient.Reply<()>) returns (o: Outcome)
      modifies this, browser
      ensures o == Settle(reply)
      ensures token == old(token) && user == old(user) && !isLoading
      ensures error == (if reply.Ok? then None else Some(ApiClient.ErrorText(reply.error, VALIDATE_FALLBACK)))
      ensures browser.storage == ApiClient.StorageAfter(old(browser.storage), reply)
      ensures browser.location == ApiClient.LocationAfter(old(browser.location), reply)
    {
      isLoading := true;
      error := None;
      var _, result := ApiClient.ValidateAccount(browser, code, reply);
      match result {
        case Ok(_) =>
          isLoading := false;
          o := Resolved;
        case Failed(err) =>
          isLoading := false;
          error := Some(ApiClient.ErrorText(err, VALIDATE_FALLBACK));
          o := Rejected(err);
      }
    }

    /**
     * `login(email, password)`. On success the response's `token` field is stored
     * (as `String(token)`, so an absent field is stored as "undefined") and becomes
     * the token state, the user becomes `{email}`, loading and error are cleared.
     * On failure the error is the server's message or "Identifiants incorrects",
     * token and user stay, the failure is re-thrown, and storage changes only by
     * the client's 401 handling.
     */
    method Login(email: string, password: string, reply: ApiClient.Reply<ApiClient.TokenResponse>) returns (o: Outcome)
      modifies this, browser
      ensures o == Settle(reply)
      ensures !isLoading
      ensures reply.Ok? ==>
                && browser.storage == old(browser.storage)[TOKEN_KEY := Stringify(reply.data.token)]
                && browser.location == old(browser.location)
                && token == reply.data.token
                && user == Some(EmailOnly(email))
                && error.None?
      ensures reply.Failed? ==>
                && browser.storage == ApiClient.StorageAfter(old(browser.storage), reply)
                && browser.location == ApiClient.LocationAfter(old(browser.location), reply)
                && token == old(token)
                && user == old(user)
                && error == Some(ApiClient.ErrorText(reply.error, LOGIN_FALLBACK))
    {
      isLoading := true;
      error := None;
      var _, result := ApiClient.Login(browser, ApiClient.Credentials(email, password), reply);
      match result {
        case Ok(data) =>
          var newToken := data.token;
          browser.SetItem(TOKEN_KEY, Stringify(newToken));
          token := newToken;
          user := Some(EmailOnly(email));
          isLoading := false;
          o := Resolved;
        case Failed(err) =>
          isLoading := false;
          error := Some(ApiClient.ErrorText(err, LOGIN_FALLBACK));
          o := Rejected(err);
      }
    }

    /** `logout()`: the stored token goes, token and user become null; loading and error stay. */
    method Logout()
      modifies this`token, this`user, browser`storage
      ensures browser.storage == AfterLogout(old(browser.storage))
      ensures token.None? && user.None?
      ensures !IsAuthenticated()
    {
      browser.RemoveItem(TOKEN_KEY);
      token := None;
      user := None;
    }
  }

  /** The storage effect of `logout`, as a function of the storage before it. */
  function AfterLogout(storage: map<string, string>): (s: map<string, string>)
    ensures TOKEN_KEY !in s
    ensures forall k :: k != TOKEN_KEY ==> (k in s <==> k in storage)
    ensures forall k :: k in s ==> s[k] == storage[k]
  {
    storage - {TOKEN_KEY}
  }

  /** Logging out twice leaves storage as logging out once. */
  lemma LogoutIdempotent(storage: map<string, string>)
    ensures AfterLogout(AfterLogout(storage)) == AfterLogout(storage)
  {
  }

  /**
   * The token field mismatch: when the server answers with `jwtToken` only (the field
   * the login form reads), `login` stores the string "undefined" and leaves the
   * session unauthenticated in memory; yet the stored string is truthy, so the
   * request hook then sends `Bearer undefined`, and a session restored from storage
   * counts as authenticated.
   */
  lemma JwtTokenOnlyReplyStoresUndefined(storage: map<string, string>, jwt: string, user: Option<Profile>, config: ApiClient.Config)
    ensures var data := ApiClient.TokenResponse(None, Some(jwt), user);
      var stored := storage[TOKEN_KEY := Stringify(data.token)];
      && stored[TOKEN_KEY] == "undefined"
      && !Authenticated(data.token)
      && Authenticated(Get(stored, TOKEN_KEY))
      && ApiClient.Authorize(config, stored).headers[ApiClient.AUTHORIZATION] == "Bearer undefined"
  {
    var stored := storage[TOKEN_KEY := Stringify(None)];
    assert Truthy(Get(stored, TOKEN_KEY));
  }
}
