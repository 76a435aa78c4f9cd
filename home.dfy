/**
 * The dashboard component: the mount guard that sends visitors without a stored
 * token to the login page and restores the stored user, the logout handler, the
 * menu toggle and the names it displays.
 */
module Home {
  import opened Wrappers
  import opened Web

  const NOT_PROVIDED := "Non renseigné"

  /** `user.firstName || user.email`. */
  function DisplayName(u: Profile): (r: string)
    ensures Truthy(u.firstName) ==> r == u.firstName.value
    ensures !Truthy(u.firstName) ==> r == u.email
    ensures r == "" ==> u.email == ""
  {
    OrElse(u.firstName, u.email)
  }

  /** `user.firstName && user.lastName ? `${firstName} ${lastName}` : 'Non renseigné'`. */
  function FullName(u: Profile): (r: string)
    ensures !(Truthy(u.firstName) && Truthy(u.lastName)) ==> r == NOT_PROVIDED
    ensures Truthy(u.firstName) && Truthy(u.lastName) ==>
              var first, last := u.firstName.value, u.lastName.value;
              && |r| == |first| + 1 + |last|
              && r[..|first|] == first && r[|first|] == ' ' && r[|first| + 1..] == last
  {
    if Truthy(u.firstName) && Truthy(u.lastName) then u.firstName.value + " " + u.lastName.value
    else NOT_PROVIDED
  }

  /**
   * A full name on its own does not tell whether the names are set: the names
   * "Non" and "renseigné" display exactly as the placeholder does.
   */
  lemma FullNameCanLookLikePlaceholder()
    ensures FullName(Profile(None, Some("Non"), Some("renseigné"), "a@b.com", None)) == NOT_PROVIDED
    ensures FullName(Profile(None, None, None, "a@b.com", None)) == NOT_PROVIDED
  {
  }

  /** What the component renders: the spinner while `user` is null, else the dashboard. */
  datatype Screen = Spinner | Dashboard(displayName: string, email: string, fullName: string)

  function Render(user: Option<Profile>): (s: Screen)
    ensures user.None? <==> s.Spinner?
    ensures user.Some? ==> s == Dashboard(DisplayName(user.value), user.value.email, FullName(user.value))
  {
    if user.None? then Spinner else Dashboard(DisplayName(user.value), user.value.email, FullName(user.value))
  }

  class HomeView {
    const browser: Browser
    var user: Option<Profile>
    var isMenuOpen: bool

    constructor (b: Browser)
      ensures browser == b && user.None? && !isMenuOpen
    {
      browser := b;
      user := None;
      isMenuOpen := false;
    }

    /**
     * The mount effect. Without a truthy stored token the view navigates to
     * `'/login'` and the user stays as it was. With one, a truthy stored user string
     * that parses becomes the user; one that does not parse leaves it.
     */
    method MountEffect(codec: JsonCodec)
      modifies this`user, browser`location
      ensures var token, userStr := old(browser.GetItem(TOKEN_KEY)), old(browser.GetItem(USER_KEY));
        && (!Truthy(token) ==> browser.location == LOGIN_ROUTE && user == old(user))
        && (Truthy(token) ==> browser.location == old(browser.location))
        && (Truthy(token) && Truthy(userStr) && codec.parse(userStr.value).Some? ==>
              user == codec.parse(userStr.value))
        && (Truthy(token) && !(Truthy(userStr) && codec.parse(userStr.value).Some?) ==> user == old(user))
    {
      var token := browser.GetItem(TOKEN_KEY);
      var userStr := browser.GetItem(USER_KEY);
      if !Truthy(token) {
        browser.Navigate(LOGIN_ROUTE);
        return;
      }
      if Truthy(userStr) {
        var parsed := codec.parse(userStr.value);
        if parsed.Some? {
          user := parsed;
        }
      }
    }

    /** `handleLogout`: both entries go and the view navigates to `'/login'`. */
    method HandleLogout()
      modifies browser
      ensures browser.storage == old(browser.storage) - {TOKEN_KEY, USER_KEY}
      ensures browser.location == LOGIN_ROUTE
    {
      browser.RemoveItem(TOKEN_KEY);
      browser.RemoveItem(USER_KEY);
      browser.Navigate(LOGIN_ROUTE);
    }

    /** The mobile menu button: flips `isMenuOpen` and nothing else. */
    method ToggleMenu()
      modifies this`isMenuOpen
      ensures isMenuOpen == !old(isMenuOpen)
    {
      isMenuOpen := !isMenuOpen;
    }

    /** What the page shows: the spinner until a user is known, then that user's dashboard. */
    function Shown(): (s: Screen)
      reads this
      ensures user.None? <==> s.Spinner?
      ensures user.Some? ==>
                s.displayName == DisplayName(user.value) && s.email == user.value.email && s.fullName == FullName(user.value)
    {
      Render(user)
    }
  }
}
