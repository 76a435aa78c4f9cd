/**
 * The browser facilities the front end touches: `localStorage` (a string-to-string
 * map), the current location, JavaScript truthiness of optional strings, and the
 * user profile record that is stored serialized under the `'user'` key.
 */
module Web {
  import opened Wrappers

  /** Storage keys used by the application. */
  const TOKEN_KEY := "token"
  const USER_KEY := "user"

  /** Routes the application navigates to. */
  const LOGIN_ROUTE := "/login"
  const HOME_ROUTE := "/home"

  /** `!!v` for a value of type `string | undefined | null`: present and non-empty. */
  predicate Truthy(v: Option<string>)
    ensures Truthy(v) <==> v.Some? && |v.value| > 0
  {
    v.Some? && v.value != ""
  }

  /** `v || fallback` for an optional string. */
  function OrElse(v: Option<string>, fallback: string): (r: string)
    ensures Truthy(v) ==> r == v.value
    ensures !Truthy(v) ==> r == fallback
    ensures r == fallback || Truthy(Some(r))
  {
    if Truthy(v) then v.value else fallback
  }

  /** `localStorage.getItem(key)`: the entry, or `null` when the key is absent. */
  function Get(storage: map<string, string>, key: string): (r: Option<string>)
    ensures r.Some? <==> key in storage
    ensures r.Some? ==> r.value == storage[key]
  {
    if key in storage then Some(storage[key]) else None
  }

  /** `String(v)` as `localStorage.setItem` applies it: an absent value is stored as "undefined". */
  function Stringify(v: Option<string>): (r: string)
    ensures v.Some? ==> r == v.value
    ensures v.None? ==> r == "undefined"
  {
    if v.Some? then v.value else "undefined"
  }

  /** A user record as the server sends it and as the views read it; every field but `email` is optional. */
  datatype Profile = Profile(
    id: Option<string>,
    firstName: Option<string>,
    lastName: Option<string>,
    email: string,
    roleTypes: Option<string>)

  /** The record `{ email }`, with every optional field absent. */
  function EmailOnly(email: string): (p: Profile)
    ensures p.email == email
    ensures p.id.None? && p.firstName.None? && p.lastName.None? && p.roleTypes.None?
  {
    Profile(None, None, None, email, None)
  }

  /**
   * `JSON.stringify` and `JSON.parse` restricted to profiles. They are library code, so
   * they enter the model as a pair of functions; `parse` answers `None` where
   * `JSON.parse` throws.
   */
  datatype JsonCodec = JsonCodec(stringify: Profile -> string, parse: string -> Option<Profile>)

  /**
   * What every correct JSON implementation does on profiles: serializing gives a
   * non-empty text (an object literal) that parses back to the same profile.
   */
  ghost predicate RoundTrips(codec: JsonCodec) {
    forall p :: codec.stringify(p) != "" && codec.parse(codec.stringify(p)) == Some(p)
  }

  /** The window: its `localStorage` and its current location. */
  class Browser {
    var storage: map<string, string>
    var location: string

    constructor (initialStorage: map<string, string>, initialLocation: string)
      ensures storage == initialStorage && location == initialLocation
    {
      storage := initialStorage;
      location := initialLocation;
    }

    /** `localStorage.getItem(key)`. */
    function GetItem(key: string): (r: Option<string>)
      reads this
      ensures r == Get(storage, key)
    {
      Get(storage, key)
    }

    /** `localStorage.setItem(key, value)`. */
    method SetItem(key: string, value: string)
      modifies this`storage
      ensures storage == old(storage)[key := value]
      ensures GetItem(key) == Some(value)
    {
      storage := storage[key := value];
    }

    /** `localStorage.removeItem(key)`; removing an absent key does nothing. */
    method RemoveItem(key: string)
      modifies this`storage
      ensures storage == old(storage) - {key}
      ensures GetItem(key) == None
    {
      storage := storage - {key};
    }

    /** `navigate(path)` or `window.location.href = path`. */
    method Navigate(path: string)
      modifies this`location
      ensures location == path
    {
      location := path;
    }
  }
}
