# Authentication front end — a verified model

This project models the logic of a small single-page authentication front end:
registration, account validation, login, and a post-login dashboard. All of it
runs against a remote HTTP authentication API. The model covers five parts:

- **Registration field rules** (`RegisterForm`), including the password regular expression.
  The regex is modelled construct by construct, then proved equal to the plain
  character-class conditions. The module also covers the form's defaults and its submit handler.
- **The session provider** (`AuthContext`): the in-memory state `{user, token, isLoading, error}`,
  the persisted `'token'` entry, and the operations `register`, `validateAccount`, `login` and `logout`.
  `isAuthenticated` is derived from the token alone.
- **The HTTP client** (`ApiClient`): the endpoint paths under `/v1`,
  the request hook that attaches `Bearer <token>`,
  and the response-error hook that drops the stored token and goes to `/login` on a 401.
- **The login form** (`LoginForm`): its submit handler with three outcomes, and its one-field change handler.
- **The dashboard** (`Home`): the mount guard, logout, the menu toggle and the displayed names.

`Web` holds the browser: `localStorage` is a `map<string, string>` field and the location is a
string field, both in class `Browser`. It also holds JavaScript truthiness and `String(...)` of an
absent value. `Scenarios` drives whole flows through the components' specifications; the
components it joins share storage keys and route names, not a route table.

Every asynchronous call becomes one method that runs to completion. The server's answer is a
parameter: `Reply<T> = Ok(data) | Failed(HttpError)`. An `HttpError` has an optional response,
made of a status and an optional `message`. The components call the client methods, and the
client's response hooks run on every reply. So a 401 to `login`, `register` or
`validateAccount` also removes the stored token and moves to `/login`. The contracts say this.

Two behaviours the code has and the model keeps:

- `AuthContext.login` reads the response field `token` (src/context/AuthContext.tsx:92).
  The login form reads `jwtToken` (src/components/auth/Login.tsx:25).
  Suppose the server sends only `jwtToken`. Then `localStorage.setItem('token', undefined)` stores
  the string `"undefined"`, and the in-memory session is not authenticated.
  That string is truthy, though. So the request hook then sends `Bearer undefined`, and a session
  restored from storage counts as authenticated (`AuthContext.JwtTokenOnlyReplyStoresUndefined`).
  Which field name the server really uses is not part of the code, so the model keeps both readings
  as written and does not "correct" either.
- The login form writes `localStorage` directly and then navigates client-side
  (src/components/auth/Login.tsx:26-30). The application mounts one session provider
  (src/App.tsx:14), whose restoring effect runs once. So under a provider that mounted before
  the form's login, the provider still holds no token and is not authenticated until the next
  page load (`Scenarios.LoginFormThenDashboard`).
- The 401 handler and `AuthContext.logout` remove only `'token'`. The serialized `'user'` entry stays.
  Only the dashboard's logout removes both. A failed login with status 401 also loses its stored
  token, through the client's hook.

Lengths follow JavaScript's `.length`: UTF-16 code units, so a character outside the Basic
Multilingual Plane counts twice (`RegisterForm.Utf16Length`). The regex runs over Dafny characters
(code points), while JavaScript runs it over code units without the `u` flag. Both accept exactly
the same passwords, because a character outside the Basic Multilingual Plane fails the whitelist
in either reading.

## Model

| member | source | states |
|---|---|---|
| `RegisterForm.Utf16Length` | src/components/RegisterForm.tsx:10-20 | the length the `min` rules compare is at least the number of characters, and equals it exactly when every character is in the Basic Multilingual Plane |
| `RegisterForm.DotStarThenContains` | src/components/RegisterForm.tsx:17 | a lookahead `(?=.*[k])` that succeeds implies a character of class `k` occurs; on whitelisted strings the converse holds too |
| `RegisterForm.AllowedRunIff` | src/components/RegisterForm.tsx:17 | `[A-Za-z\d@$!%*?&]{n,}$` matches iff every character is whitelisted and there are at least `n` of them |
| `RegisterForm.PasswordRegex` | src/components/RegisterForm.tsx:17 | the password regex matches iff: at least 8 characters, a lower-case letter, an upper-case letter, a digit, a symbol from `@$!%*?&`, and only whitelisted characters |
| `RegisterForm.AllowedCharsAreBmp` | src/components/RegisterForm.tsx:15-17 | on whitelisted strings the JavaScript length equals the character count |
| `RegisterForm.ValidName` | src/components/RegisterForm.tsx:10-11 | two characters always satisfy `min(2)`; inside the Basic Multilingual Plane the rule is exactly "at least two characters" |
| `RegisterForm.ValidPassword` | src/components/RegisterForm.tsx:13-19 | the full password rule (`min(8)` and the regex) accepts iff the character-class conditions hold |
| `RegisterForm.ValidPhone` | src/components/RegisterForm.tsx:20 | ten characters of any kind always satisfy `min(10)`; inside the Basic Multilingual Plane the rule is exactly "at least ten characters" |
| `RegisterForm.ForeignCharacterRejected` | src/components/RegisterForm.tsx:17 | any character outside `[A-Za-z0-9@$!%*?&]` rejects the password, whatever else it contains |
| `RegisterForm.LowerCaseOnlyRejected` | src/components/RegisterForm.tsx:13-19 | `"abcdefgh"` is rejected |
| `RegisterForm.MixedPasswordAccepted` | src/components/RegisterForm.tsx:13-19 | `"Abcdef1!"` is accepted |
| `RegisterForm.ForeignCharacterExamples` | src/components/RegisterForm.tsx:17 | `"Abcdef1!#"` and `"Abc def1!"` are rejected although all four classes occur |
| `RegisterForm.PhoneCountsCharacters` | src/components/RegisterForm.tsx:20 | the phone rule counts characters, not digits: ten letters pass, nine digits fail |
| `RegisterForm.Prefilled` | src/components/RegisterForm.tsx:40-43 | the typed fields hold the user's values, beside the defaults role `'USER'` and profile picture `'string'` |
| `RegisterForm.IssuesAreFailingFields` | src/components/RegisterForm.tsx:9-20 | the reported fields are exactly those whose rule fails |
| `RegisterForm.Parse` | src/components/RegisterForm.tsx:9-23 | parsing succeeds iff every field rule holds (names ≥ 2, email per the library predicate, password rule, phone ≥ 10); on failure the reported fields are exactly the failing ones and the set is non-empty; on success the values come through unchanged, the optional profile picture included, and an absent role becomes `'USER'` |
| `RegisterForm.PrefilledDefaults` | src/components/RegisterForm.tsx:40-43 | a pre-filled form that passes parses with role `'USER'` and profile picture `'string'` |
| `RegisterForm.ToJson` | src/components/RegisterForm.tsx:50 | the body's keys are exactly the six fields plus `profilePicture` when one is set (an absent one is dropped, as `JSON.stringify` does); every value is the field's value |
| `RegisterForm.RegisterView.constructor` | src/components/RegisterForm.tsx:30-32 | not submitting, no server error, no success message |
| `RegisterForm.RegisterView.OnSubmit` | src/components/RegisterForm.tsx:46-60 | the server error is cleared first; success sets the fixed success message; failure sets the server's message or the fixed fallback and leaves the success message; `isSubmitting` is false on both paths; the session's token and user are untouched |
| `RegisterForm.RegisterView.HandleSubmit` | src/components/RegisterForm.tsx:96 | values that fail the schema never reach `onSubmit`: the failing fields are recorded and the session, storage, location and submit state are unchanged; values that pass clear the field errors and have exactly `onSubmit`'s effect (success message or server error, session error and loading, storage and location after the client's hooks) |
| `AuthContext.Authenticated` | src/context/AuthContext.tsx:119 | `!!token` holds iff the token is present and non-empty |
| `AuthContext.Settle` | src/context/AuthContext.tsx:62-69 | the operation resolves iff the call succeeded, and otherwise re-throws the client's error unchanged |
| `AuthContext.AuthSession.constructor` | src/context/AuthContext.tsx:42-46 | the token state starts as the stored `'token'` entry; user null, not loading, no error |
| `AuthContext.AuthSession.RestoreSession` | src/context/AuthContext.tsx:49-56 | a truthy stored token becomes the token state; when storage is unchanged since mounting, the token state is unchanged |
| `AuthContext.AuthSession.Register` | src/context/AuthContext.tsx:59-70 | settles as the call did; token and user unchanged; not loading at the end; error null on success, otherwise the server's message or the register fallback; storage and location change only through the client's 401 handling |
| `AuthContext.AuthSession.ValidateAccount` | src/context/AuthContext.tsx:73-84 | the same as `Register`, with the validation fallback |
| `AuthContext.AuthSession.Login` | src/context/AuthContext.tsx:87-107 | on success: stored and in-memory token are the response's `token` field (stored as `"undefined"` when absent), user becomes `{email}`, not loading, no error, location unchanged; on failure: error is the server's message or `'Identifiants incorrects'`, token and user unchanged, not loading, the error is re-thrown, and storage only loses its token on a 401 |
| `AuthContext.AuthSession.IsAuthenticated` | src/context/AuthContext.tsx:119 | the provider's `isAuthenticated` holds iff its token state is present and non-empty |
| `AuthContext.AuthSession.Logout` | src/context/AuthContext.tsx:110-114 | the stored token is removed, token and user become null, the session is unauthenticated; loading and error are outside its frame and stay |
| `AuthContext.AfterLogout` | src/context/AuthContext.tsx:110-111 | no token remains; every other key is kept with its value, and no key is added |
| `AuthContext.LogoutIdempotent` | src/context/AuthContext.tsx:110-114 | logging out twice leaves storage as logging out once |
| `AuthContext.JwtTokenOnlyReplyStoresUndefined` | src/context/AuthContext.tsx:92-96 | a reply carrying only `jwtToken` stores `"undefined"`; the in-memory session is unauthenticated, but the stored value is truthy and the next request sends `Bearer undefined` |
| `ApiClient.ValidateAccountPath` | src/api/apiClient.ts:68-69 | the path is the fixed prefix followed by the code, unencoded |
| `ApiClient.CodeOfValidateAccountPath` | src/api/apiClient.ts:68-69 | the code can be read back from its path |
| `ApiClient.EndpointsDistinct` | src/api/apiClient.ts:65-72 | the three endpoint paths are pairwise distinct for every code |
| `ApiClient.FullUrl` | src/api/apiClient.ts:3-6 | every request URL is `/v1` followed by the path |
| `ApiClient.Authorize` | src/api/apiClient.ts:16-20 | with a truthy stored token the `Authorization` header is `"Bearer " + token`, otherwise the config is returned as is; method, URL, body and every other header are unchanged |
| `ApiClient.IsUnauthorized` | src/api/apiClient.ts:53 | the 401 branch is taken only for a failed call with a response whose status is 401; never for a success or a failure without a response |
| `ApiClient.StorageAfter` | src/api/apiClient.ts:53-54 | after a 401 error the token entry is gone; after anything else storage is unchanged |
| `ApiClient.LocationAfter` | src/api/apiClient.ts:53-55 | after a 401 error the location is `/login`; after anything else it is unchanged |
| `ApiClient.UnauthorizedKeepsOtherEntries` | src/api/apiClient.ts:53-54 | the response hooks keep every entry but the token, the stored user included, and no truthy token survives a 401 |
| `ApiClient.NoBearerAfterUnauthorized` | src/api/apiClient.ts:15-59 | after a 401 the next request goes out without an `Authorization` header being added |
| `ApiClient.OnResponseError` | src/api/apiClient.ts:41-58 | on status 401 the stored token is removed and the location becomes `/login`; other statuses and errors without a response change nothing; the error is rejected unchanged |
| `ApiClient.Send` | src/api/apiClient.ts:15-59 | the request goes out as the request hook makes it from the storage before the call; a successful reply passes through unchanged; errors go through the error hook |
| `ApiClient.Register` | src/api/apiClient.ts:65-66 | POST to `/v1/auth/user/register` with the form data as body |
| `ApiClient.ValidateAccount` | src/api/apiClient.ts:68-69 | PUT to `/v1/auth/user/validateAccount/<code>` without a body |
| `ApiClient.Login` | src/api/apiClient.ts:71-72 | POST to `/v1/auth/user/token` with the credentials as body |
| `ApiClient.CredentialsBody` | src/context/AuthContext.tsx:91 | the login body has exactly the keys `email` and `password`, holding the credentials |
| `ApiClient.ServerMessage` | src/context/AuthContext.tsx:67 | `error.response?.data?.message`: absent without a response, otherwise the response's message |
| `ApiClient.ErrorText` | src/context/AuthContext.tsx:67 | the server's message when truthy, else the fallback; never empty when the fallback is not |
| `Web.Truthy` | src/api/apiClient.ts:17-18 | a stored string is truthy iff it is present and non-empty |
| `Web.Stringify` | src/context/AuthContext.tsx:95 | storing an absent value stores the string `"undefined"` |
| `Web.EmailOnly` | src/context/AuthContext.tsx:99 | the user record `{email}` has only its email set |
| `Web.Get` | src/context/AuthContext.tsx:44 | `getItem` returns the entry iff the key is stored |
| `Web.OrElse` | src/components/Home.tsx:62 | the value when truthy, else the fallback |
| `Web.Browser.GetItem` | src/api/apiClient.ts:17 | reads the current storage entry |
| `Web.Browser.SetItem` | src/components/auth/Login.tsx:26 | the entry is written and nothing else changes |
| `Web.Browser.RemoveItem` | src/api/apiClient.ts:54 | the entry is removed and nothing else changes |
| `Web.Browser.Navigate` | src/components/Home.tsx:37 | the location becomes the path |
| `LoginForm.WithField` | src/components/auth/Login.tsx:44-49 | the named field takes the value; the other field is unchanged |
| `LoginForm.WithFieldLastWins` | src/components/auth/Login.tsx:44-49 | writing a field twice keeps the last value; writing the current value changes nothing |
| `LoginForm.StoredAfterSuccess` | src/components/auth/Login.tsx:25-29 | `'token'` holds the `jwtToken`; `'user'` holds the serialized user when the reply has one and is untouched otherwise; nothing else changes |
| `LoginForm.LoginView.constructor` | src/components/auth/Login.tsx:12-17 | empty form, empty error, not loading |
| `LoginForm.LoginView.HandleChange` | src/components/auth/Login.tsx:44-50 | the form record changes in the named field only |
| `LoginForm.LoginView.HandleSubmit` | src/components/auth/Login.tsx:19-42 | with a truthy `jwtToken`: storage as `StoredAfterSuccess`, location `/home`, error untouched; without: the "pas de token reçu" error, storage and location unchanged; on failure: the server's message or the fixed fallback, storage changes only by the 401 hook; not loading on every path |
| `Home.DisplayName` | src/components/Home.tsx:62 | the first name when truthy, else the email |
| `Home.FullName` | src/components/Home.tsx:130-132 | first name, a space and last name when both are truthy; otherwise `'Non renseigné'` |
| `Home.FullNameCanLookLikePlaceholder` | src/components/Home.tsx:130-132 | the names "Non" and "renseigné" display exactly as the placeholder |
| `Home.Render` | src/components/Home.tsx:40-46 | the spinner is shown iff the user is null, otherwise the dashboard with the display name, email and full name |
| `Home.HomeView.constructor` | src/components/Home.tsx:12-13 | no user, menu closed |
| `Home.HomeView.MountEffect` | src/components/Home.tsx:15-32 | without a truthy stored token the location becomes `/login` and the user is unchanged; with one, a stored user that parses becomes the user, and a missing or unparseable one leaves it unchanged |
| `Home.HomeView.HandleLogout` | src/components/Home.tsx:34-38 | both `'token'` and `'user'` are removed and the location becomes `/login` |
| `Home.HomeView.Shown` | src/components/Home.tsx:40-46 | the page shows the spinner iff no user is known, otherwise that user's display name, email and full name |
| `Home.HomeView.ToggleMenu` | src/components/Home.tsx:76 | flips `isMenuOpen` and changes nothing else |
| `Scenarios.LoginFormThenDashboard` | src/components/auth/Login.tsx:19-42 | with the provider mounted first and no stored token, logging in with `{a@b.com, x}` against `{jwtToken: "t1"}` stores `"t1"` and lands on `/home`, yet the mounted provider stays unauthenticated; the next request carries `Bearer t1`, and only a provider mounted by the next page load is authenticated |
| `Scenarios.GuardWithoutToken` | src/components/Home.tsx:15-46 | without a stored token the dashboard redirects to `/login` and shows only the spinner |
| `Scenarios.StoredUserReachesDashboard` | src/components/Home.tsx:24-27 | with a JSON codec that round-trips, the user the login form stores under `'user'` is the user a dashboard mounted next renders |
| `Scenarios.SessionLoginThenRequest` | src/context/AuthContext.tsx:87-101 | after the provider's successful login, the session is authenticated and the next request carries the new token |
| `Scenarios.UnauthorizedEndsSession` | src/api/apiClient.ts:53-56 | after a 401 on any of `register`, `validateAccount` or `login`, the location is `/login`, a provider mounted and restored on the next page load is unauthenticated, and the next request has no `Authorization` header |
| `Scenarios.LogoutThenDashboard` | src/components/Home.tsx:34-38 | after the dashboard's logout, both entries are gone and mounting the dashboard again stays on `/login` |

## Left out

- JSX rendering and styling. The only part kept is the dashboard's choice between the spinner and its content (`Home.Render`). The pages under src/pages/, the navigation bar, and src/App.tsx with its routes and protected route are markup or router configuration. `ProtectedRoute`, `LoginForm`, `ValidateAccount` and `Dashboard` are not modelled.
- The email rule is the validation library's own regular expression. It enters as a parameter `isEmail: string -> bool`.
- `JSON.stringify` and `JSON.parse` enter as a pair of functions (`Web.JsonCodec`); a parse that throws is `None`. `JSON.parse` can also yield values that are not profiles, such as `null` or a number. The model does not tell these apart from a parse failure.
- `localStorage.setItem` applies `String(...)`. The model renders an absent token as `"undefined"`. It does not model a `null` or non-string token (`"null"`, numbers).
- The delayed navigation to `/validate` after a successful registration (a three-second timer) is left out. So are React's batching of state updates and the intermediate renders while a request is pending (`isLoading` or `isSubmitting` true). Each operation runs to completion with its updates applied in order.
- `App.tsx` renders neither `components/auth/Login.tsx` nor `components/Home.tsx`, and has no `/home` route (its catch-all redirects to `/`). The Scenarios connect these two components only through the storage keys and route names they share.
- Concurrency, interleaved requests, and state updates after a component unmounts.
- `navigate(...)` and `window.location.href = ...` both set `Browser.location`. The full page reload that the latter triggers, which resets all in-memory state, is represented in `Scenarios` by mounting a fresh provider after the next page load; `navigate(...)` is client-side and keeps the mounted provider. The `{ replace: true }` history behaviour is not modelled.
- Axios itself is left out: the transport, its default headers, `withCredentials`, and the development-server proxy. So is the request hook's error branch, which rejects the error unchanged and keeps no state.
- Console logging.
- Date formatting on the dashboard.
- The `useAuth` hook's error when it is used outside the provider.
- `Login.handleChange` with an input name other than `email` or `password`: the markup has only those two inputs.
- The schema's type checks for non-string field values: form inputs always yield strings.
- `ApiClient.Authorize` treats the request config as a value. In the code, the hook mutates the config object's headers in place and returns that same object. No other code holds the object at that point.
- src/pages/Register.tsx, a second registration screen, repeats the client-call-and-error pattern that the model covers through `RegisterForm` and `LoginForm`.
