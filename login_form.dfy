/**
 * The login form component: `handleSubmit` calls the client directly and writes
 * the `'token'` and `'user'` entries itself; `handleChange` edits one field of
 * the form record.
 */
module LoginForm {
  import opened Wrappers
  import opened Web
  import ApiClient

  const NO_TOKEN_MESSAGE := "Erreur lors de la connexion: pas de token reçu"
  const LOGIN_FALLBACK := "Erreur lors de la connexion. Veuillez réessayer."

  /** The two inputs, by their `name` attribute. */
  datatype FieldName = EmailField | PasswordField

  function Read(form: ApiClient.Credentials, name: FieldName): string {
    match name
    case EmailField => form.email
    case PasswordField => form.password
  }

  /** `{ ...prev, [name]: value }`. */
  function WithField(form: ApiClient.Credentials, name: FieldName, value: string): (r: ApiClient.Credentials)
    ensures Read(r, name) == value
    ensures forall other :: other != name ==> Read(r, other) == Read(form, other)
  {
    match name
    case EmailField => form.(email := value)
    case PasswordField => form.(password := value)
  }

  /** Writing a field twice keeps the last value; writing the value a field holds changes nothing. */
  lemma WithFieldLastWins(form: ApiClient.Credentials, name: FieldName, a: string, b: string)
    ensures WithField(WithField(form, name, a), name, b) == WithField(form, name, b)
    ensures WithField(form, name, Read(form, name)) == form
  {
  }

  /** Storage after a successful reply: `'token'` and, when the reply has a user, the serialized `'user'`. */
  function StoredAfterSuccess(storage: map<string, string>, data: ApiClient.TokenResponse, codec: JsonCodec): (s: map<string, string>)
    requires Truthy(data.jwtToken)
    ensures TOKEN_KEY in s && s[TOKEN_KEY] == data.jwtToken.value
    ensures data.user.Some? ==> USER_KEY in s && s[USER_KEY] == codec.stringify(data.user.value)
    ensures data.user.None? ==> Get(s, USER_KEY) == Get(storage, USER_KEY)
    ensures forall k :: k != TOKEN_KEY && k != USER_KEY ==> Get(s, k) == Get(storage, k)
  {
    var withToken := storage[TOKEN_KEY := data.jwtToken.value];
    if data.user.Some? then withToken[USER_KEY := codec.stringify(data.user.value)] else withToken
  }

  class LoginView {
    const browser: Browser
    var formData: ApiClient.Credentials
    var error: string
    var isLoading: bool

    constructor (b: Browser)
      ensures browser == b
      ensures formData == ApiClient.Credentials("", "") && error == "" && !isLoading
    {
      browser := b;
      formData := ApiClient.Credentials("", "");
      error := "";
      isLoading := false;
    }

    /** `handleChange`: only the named field changes. */
    method HandleChange(name: FieldName, value: string)
      modifies this`formData
      ensures formData == WithField(old(formData), name, value)
    {
      formData := WithField(formData, name, value);
    }

    /**
     * `handleSubmit`. A truthy `jwtToken` is stored with the serialized user (when
     * the reply has one) and the view navigates to `'/home'`; a reply without it
     * sets the "no token" error and stores nothing; a failure sets the server's
     * message or the fallback (storage changes only by the client's 401 handling).
     * Loading is off afterwards on every path; the error is not cleared on entry.
     */
    method HandleSubmit(reply: ApiClient.Reply<ApiClient.TokenResponse>, codec: JsonCodec)
      modifies this`error, this`isLoading, browser
      ensures !isLoading
      ensures reply.Ok? && Truthy(reply.data.jwtToken) ==>
                && browser.storage == StoredAfterSuccess(old(browser.storage), reply.data, codec)
                && browser.location == HOME_ROUTE
                && error == old(error)
      ensures reply.Ok? && !Truthy(reply.data.jwtToken) ==>
                && browser.storage == old(browser.storage)
                && browser.location == old(browser.location)
                && error == NO_TOKEN_MESSAGE
      ensures reply.Failed? ==>
                && browser.storage == ApiClient.StorageAfter(old(browser.storage), reply)
                && browser.location == ApiClient.LocationAfter(old(browser.location), reply)
                && error == ApiClient.ErrorText(reply.error, LOGIN_FALLBACK)
    {
      isLoading := true;
      var _, result := ApiClient.Login(browser, formData, reply);
      match result {
        case Ok(data) =>
          if Truthy(data.jwtToken) {
            browser.SetItem(TOKEN_KEY, data.jwtToken.value);
            if data.user.Some? {
              browser.SetItem(USER_KEY, codec.stringify(data.user.value));
            }
            browser.Navigate(HOME_ROUTE);
          } else {
            error := NO_TOKEN_MESSAGE;
          }
        case Failed(err) =>
          error := ApiClient.ErrorText(err, LOGIN_FALLBACK);
      }
      isLoading := false;
    }
  }
}
