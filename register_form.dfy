/**
 * The registration form: the schema's field rules, the defaults the form starts
 * from, and the submit handler's `isSubmitting` / `serverError` / `successMessage`
 * updates.
 */
module RegisterForm {
  import opened Wrappers
  import opened Web
  import ApiClient
  import AuthContext

  const MIN_NAME_LENGTH := 2
  const MIN_PASSWORD_LENGTH := 8
  const MIN_PHONE_LENGTH := 10
  const DEFAULT_ROLE := "USER"
  const DEFAULT_PROFILE_PICTURE := "string"
  const SUCCESS_MESSAGE := "Inscription réussie ! Veuillez vérifier votre email pour valider votre compte."
  const SUBMIT_FALLBACK := "Une erreur est survenue lors de l'inscription"

  // ---------------------------------------------------------------------------
  // Lengths, as JavaScript counts them

  /** Code points outside the Basic Multilingual Plane take two UTF-16 code units. */
  function CodeUnits(c: char): nat {
    if c as int > 0xFFFF then 2 else 1
  }

  /** `s.length` in JavaScript: the number of UTF-16 code units. */
  function Utf16Length(s: string): (n: nat)
    ensures n >= |s|
    ensures n == |s| <==> forall i :: 0 <= i < |s| ==> s[i] as int <= 0xFFFF
  {
    if s == [] then 0
    else
      assert forall i :: 1 <= i < |s| ==> s[1..][i - 1] == s[i];
      CodeUnits(s[0]) + Utf16Length(s[1..])
  }

  // ---------------------------------------------------------------------------
  // Character classes of the password rule

  datatype CharClass = Lower | Upper | Digit | Symbol | Allowed

  predicate IsLower(c: char) { 'a' <= c <= 'z' }
  predicate IsUpper(c: char) { 'A' <= c <= 'Z' }
  /** `\d` without the `u` flag: ASCII digits only. */
  predicate IsDigit(c: char) { '0' <= c <= '9' }
  /** One of `@$!%*?&`. */
  predicate IsSymbol(c: char) { c == '@' || c == '$' || c == '!' || c == '%' || c == '*' || c == '?' || c == '&' }

  /** `[a-z]`, `[A-Z]`, `\d`, `[@$!%*?&]`, and their union `[A-Za-z\d@$!%*?&]`. */
  predicate InClass(c: char, k: CharClass) {
    match k
    case Lower => IsLower(c)
    case Upper => IsUpper(c)
    case Digit => IsDigit(c)
    case Symbol => IsSymbol(c)
    case Allowed => IsLower(c) || IsUpper(c) || IsDigit(c) || IsSymbol(c)
  }

  /** What `.` refuses: the line terminators. */
  predicate IsLineTerminator(c: char) {
    c == '\n' || c == '\r' || c == '\U{2028}' || c == '\U{2029}'
  }

  // ---------------------------------------------------------------------------
  // The regular expression, construct by construct

  /** The lookahead `(?=.*[k])` at the start of `s`: some characters matched by `.`, then one of class `k`. */
  predicate DotStarThen(s: string, k: CharClass)
    decreases |s|
  {
    |s| > 0 && (InClass(s[0], k) || (!IsLineTerminator(s[0]) && DotStarThen(s[1..], k)))
  }

  /** `[A-Za-z\d@$!%*?&]{n,}$` at the start of `s`: at least `n` allowed characters, then the end. */
  predicate AllowedRun(s: string, n: nat)
    decreases |s|
  {
    if s == [] then n == 0
    else InClass(s[0], Allowed) && AllowedRun(s[1..], if n > 0 then n - 1 else 0)
  }

  // ---------------------------------------------------------------------------
  // The character-class conditions, stated directly

  predicate Contains(s: string, k: CharClass) {
    exists i :: 0 <= i < |s| && InClass(s[i], k)
  }

  predicate AllAllowed(s: string) {
    forall i :: 0 <= i < |s| ==> InClass(s[i], Allowed)
  }

  /** The password conditions: length, the four classes, and the whitelist. */
  predicate MeetsPasswordConditions(s: string) {
    && |s| >= MIN_PASSWORD_LENGTH
    && Contains(s, Lower) && Contains(s, Upper) && Contains(s, Digit) && Contains(s, Symbol)
    && AllAllowed(s)
  }

  lemma {:induction false} DotStarThenContains(s: string, k: CharClass)
    ensures DotStarThen(s, k) ==> Contains(s, k)
    ensures AllAllowed(s) && Contains(s, k) ==> DotStarThen(s, k)
    decreases |s|
  {
    if |s| > 0 {
      DotStarThenContains(s[1..], k);
      if DotStarThen(s, k) && !InClass(s[0], k) {
        var i :| 0 <= i < |s[1..]| && InClass(s[1..][i], k);
        assert InClass(s[i + 1], k);
      }
      if AllAllowed(s) && Contains(s, k) && !InClass(s[0], k) {
        var i :| 0 <= i < |s| && InClass(s[i], k);
        assert i > 0 && InClass(s[1..][i - 1], k);
        assert AllAllowed(s[1..]) by {
          forall j | 0 <= j < |s[1..]| ensures InClass(s[1..][j], Allowed) {
            assert s[1..][j] == s[j + 1];
          }
        }
        assert InClass(s[0], Allowed);
      }
    }
  }

  lemma {:induction false} AllowedRunIff(s: string, n: nat)
    ensures AllowedRun(s, n) <==> AllAllowed(s) && |s| >= n
    decreases |s|
  {
    if s != [] {
      AllowedRunIff(s[1..], if n > 0 then n - 1 else 0);
      if AllAllowed(s) {
        forall j | 0 <= j < |s[1..]| ensures InClass(s[1..][j], Allowed) {
          assert s[1..][j] == s[j + 1];
        }
      }
      if InClass(s[0], Allowed) && AllAllowed(s[1..]) {
        forall j | 0 <= j < |s| ensures InClass(s[j], Allowed) {
          if j > 0 { assert s[j] == s[1..][j - 1]; }
        }
      }
    }
  }

  /**
   * `/^(?=.*[a-z])(?=.*[A-Z])(?=.*\d)(?=.*[@$!%*?&])[A-Za-z\d@$!%*?&]{8,}$/.test(s)`:
   * it accepts exactly the strings that meet the character-class conditions.
   */
  predicate PasswordRegex(s: string)
    ensures PasswordRegex(s) <==> MeetsPasswordConditions(s)
  {
    AllowedRunIff(s, 8);
    DotStarThenContains(s, Lower);
    DotStarThenContains(s, Upper);
    DotStarThenContains(s, Digit);
    DotStarThenContains(s, Symbol);
    && DotStarThen(s, Lower)
    && DotStarThen(s, Upper)
    && DotStarThen(s, Digit)
    && DotStarThen(s, Symbol)
    && AllowedRun(s, 8)
  }

  // ---------------------------------------------------------------------------
  // The field rules of the schema

  /** Whitelisted characters are single UTF-16 code units. */
  lemma AllowedCharsAreBmp(s: string)
    ensures AllAllowed(s) ==> Utf16Length(s) == |s|
  {
    if AllAllowed(s) {
      forall i | 0 <= i < |s| ensures s[i] as int <= 0xFFFF {
        assert InClass(s[i], Allowed);
      }
    }
  }

  /**
   * `z.string().min(2)` for first and last names: two characters always suffice, and
   * for text inside the Basic Multilingual Plane the rule is exactly "at least two".
   */
  predicate ValidName(s: string)
    ensures |s| >= MIN_NAME_LENGTH ==> ValidName(s)
    ensures (forall i :: 0 <= i < |s| ==> s[i] as int <= 0xFFFF) ==> (ValidName(s) <==> |s| >= MIN_NAME_LENGTH)
  {
    Utf16Length(s) >= MIN_NAME_LENGTH
  }

  /**
   * `z.string().min(8).regex(...)` for the password. It is accepted iff it has at
   * least 8 characters, a lower-case letter, an upper-case letter, a digit and one
   * of `@$!%*?&`, and no character outside `[A-Za-z0-9@$!%*?&]`.
   */
  predicate ValidPassword(s: string)
    ensures ValidPassword(s) <==> MeetsPasswordConditions(s)
  {
    AllowedCharsAreBmp(s);
    Utf16Length(s) >= MIN_PASSWORD_LENGTH && PasswordRegex(s)
  }

  /**
   * `z.string().min(10)` for the phone. It counts characters, whatever they are:
   * ten characters always suffice, and inside the Basic Multilingual Plane the rule is
   * exactly "at least ten".
   */
  predicate ValidPhone(s: string)
    ensures |s| >= MIN_PHONE_LENGTH ==> ValidPhone(s)
    ensures (forall i :: 0 <= i < |s| ==> s[i] as int <= 0xFFFF) ==> (ValidPhone(s) <==> |s| >= MIN_PHONE_LENGTH)
  {
    Utf16Length(s) >= MIN_PHONE_LENGTH
  }

  /** A character outside the whitelist rejects the password, whatever else it contains. */
  lemma ForeignCharacterRejected(s: string, i: nat)
    requires i < |s| && !InClass(s[i], Allowed)
    ensures !ValidPassword(s)
  {
  }

  /** Eight lower-case letters: no upper-case letter, digit or symbol, so rejected. */
  lemma LowerCaseOnlyRejected()
    ensures !ValidPassword("abcdefgh")
  {
    var s := "abcdefgh";
    assert !Contains(s, Upper) by {
      forall i | 0 <= i < |s| ensures !InClass(s[i], Upper) {
        assert IsLower(s[i]);
      }
    }
  }

  /** The shortest kind of accepted password. */
  lemma MixedPasswordAccepted()
    ensures ValidPassword("Abcdef1!")
  {
    var s := "Abcdef1!";
    assert InClass(s[0], Upper) && InClass(s[1], Lower) && InClass(s[6], Digit) && InClass(s[7], Symbol);
    assert AllAllowed(s) by {
      forall i | 0 <= i < |s| ensures InClass(s[i], Allowed) {
      }
    }
  }

  /** All four classes present, but `#` or a space is outside the whitelist. */
  lemma ForeignCharacterExamples()
    ensures !ValidPassword("Abcdef1!#")
    ensures !ValidPassword("Abc def1!")
  {
    ForeignCharacterRejected("Abcdef1!#", 8);
    ForeignCharacterRejected("Abc def1!", 3);
  }

  /** The phone rule counts characters: ten letters pass it, nine digits do not. */
  lemma PhoneCountsCharacters()
    ensures ValidPhone("abcdefghij")
    ensures !ValidPhone("012345678")
  {
  }

  // ---------------------------------------------------------------------------
  // Parsing the form values

  datatype Field = FirstName | LastName | Email | Password | Phone

  /** What the form holds on submit; the two optional fields may be absent. */
  datatype FormValues = FormValues(
    firstName: string,
    lastName: string,
    email: string,
    password: string,
    phone: string,
    profilePicture: Option<string>,
    roleTypes: Option<string>)

  /** The schema's output, with the default role filled in. */
  datatype Registration = Registration(
    firstName: string,
    lastName: string,
    email: string,
    password: string,
    phone: string,
    profilePicture: Option<string>,
    roleTypes: string)

  /** The form's pre-filled values: role `'USER'` and profile picture `'string'`. */
  function Prefilled(firstName: string, lastName: string, email: string, password: string, phone: string): (v: FormValues)
    ensures v.firstName == firstName && v.lastName == lastName && v.email == email
    ensures v.password == password && v.phone == phone
    ensures v.roleTypes == Some(DEFAULT_ROLE) && v.profilePicture == Some(DEFAULT_PROFILE_PICTURE)
  {
    FormValues(firstName, lastName, email, password, phone, Some(DEFAULT_PROFILE_PICTURE), Some(DEFAULT_ROLE))
  }

  /** Whether one field passes its rule; the email rule is the library's, `isEmail`. */
  predicate FieldValid(v: FormValues, f: Field, isEmail: string -> bool) {
    match f
    case FirstName => ValidName(v.firstName)
    case LastName => ValidName(v.lastName)
    case Email => isEmail(v.email)
    case Password => ValidPassword(v.password)
    case Phone => ValidPhone(v.phone)
  }

  function Issue(ok: bool, f: Field): set<Field> {
    if ok then {} else {f}
  }

  /** The set of failing fields, one rule at a time. */
  function Issues(v: FormValues, isEmail: string -> bool): set<Field> {
    Issue(FieldValid(v, FirstName, isEmail), FirstName) + Issue(FieldValid(v, LastName, isEmail), LastName)
    + Issue(FieldValid(v, Email, isEmail), Email) + Issue(FieldValid(v, Password, isEmail), Password)
    + Issue(FieldValid(v, Phone, isEmail), Phone)
  }

  lemma IssuesAreFailingFields(v: FormValues, isEmail: string -> bool)
    ensures forall f :: f in Issues(v, isEmail) <==> !FieldValid(v, f, isEmail)
  {
    forall f ensures f in Issues(v, isEmail) <==> !FieldValid(v, f, isEmail) {
      match f
      case FirstName =>
      case LastName =>
      case Email =>
      case Password =>
      case Phone =>
    }
  }

  /**
   * `registerSchema.safeParse(values)`: every failing field is reported; on success
   * the values come through, `roleTypes` defaulting to `'USER'` when absent.
   */
  function Parse(v: FormValues, isEmail: string -> bool): (r: Result<Registration, set<Field>>)
    ensures r.Success? <==> forall f :: FieldValid(v, f, isEmail)
    ensures r.Failure? ==> r.error != {} && forall f :: f in r.error <==> !FieldValid(v, f, isEmail)
    ensures r.Success? ==>
              && r.value.firstName == v.firstName && r.value.lastName == v.lastName
              && r.value.email == v.email && r.value.password == v.password && r.value.phone == v.phone
              && r.value.profilePicture == v.profilePicture
              && r.value.roleTypes == (if v.roleTypes.Some? then v.roleTypes.value else DEFAULT_ROLE)
  {
    var issues := Issues(v, isEmail);
    if issues == {} then
      Success(Registration(v.firstName, v.lastName, v.email, v.password, v.phone, v.profilePicture,
                           if v.roleTypes.Some? then v.roleTypes.value else DEFAULT_ROLE))
    else
      IssuesAreFailingFields(v, isEmail);
      Failure(issues)
  }

  /** A pre-filled form that passes parses with role `'USER'` and profile picture `'string'`. */
  lemma PrefilledDefaults(firstName: string, lastName: string, email: string, password: string, phone: string, isEmail: string -> bool)
    requires Parse(Prefilled(firstName, lastName, email, password, phone), isEmail).Success?
    ensures var r := Parse(Prefilled(firstName, lastName, email, password, phone), isEmail).value;
      r.roleTypes == DEFAULT_ROLE && r.profilePicture == Some(DEFAULT_PROFILE_PICTURE)
  {
  }

  /** The JSON object sent to the server; an absent profile picture is left out, as `JSON.stringify` does. */
  function ToJson(r: Registration): (m: map<string, string>)
    ensures m.Keys == {"firstName", "lastName", "email", "password", "phone", "roleTypes"}
                      + (if r.profilePicture.Some? then {"profilePicture"} else {})
    ensures m["firstName"] == r.firstName && m["lastName"] == r.lastName && m["email"] == r.email
    ensures m["password"] == r.password && m["phone"] == r.phone && m["roleTypes"] == r.roleTypes
    ensures r.profilePicture.Some? ==> m["profilePicture"] == r.profilePicture.value
  {
    var m := map["firstName" := r.firstName, "lastName" := r.lastName, "email" := r.email,
                 "password" := r.password, "phone" := r.phone, "roleTypes" := r.roleTypes];
    if r.profilePicture.Some? then m["profilePicture" := r.profilePicture.value] else m
  }

  // ---------------------------------------------------------------------------
  // The form component's state

  class RegisterView {
    const auth: AuthContext.AuthSession
    var isSubmitting: bool
    var serverError: Option<string>
    var successMessage: Option<string>
    var fieldErrors: set<Field>

    constructor (session: AuthContext.AuthSession)
      ensures auth == session
      ensures !isSubmitting && serverError.None? && successMessage.None? && fieldErrors == {}
    {
      auth := session;
      isSubmitting := false;
      serverError := None;
      successMessage := None;
      fieldErrors := {};
    }

    /**
     * `onSubmit(data)`: the server error is cleared, the session's `register` runs,
     * then the success message is set or the server error becomes the server's
     * message or the fixed fallback; `isSubmitting` is false afterwards on both paths.
     */
    method OnSubmit(data: Registration, reply: ApiClient.Reply<()>)
      modifies this`isSubmitting, this`serverError, this`successMessage, auth, auth.browser
      ensures !isSubmitting
      ensures reply.Ok? ==> successMessage == Some(SUCCESS_MESSAGE) && serverError.None?
      ensures reply.Failed? ==>
                successMessage == old(successMessage) && serverError == Some(ApiClient.ErrorText(reply.error, SUBMIT_FALLBACK))
      ensures auth.token == old(auth.token) && auth.user == old(auth.user) && !auth.isLoading
      ensures auth.error == (if reply.Ok? then None else Some(ApiClient.ErrorText(reply.error, AuthContext.REGISTER_FALLBACK)))
      ensures auth.browser.storage == ApiClient.StorageAfter(old(auth.browser.storage), reply)
      ensures auth.browser.location == ApiClient.LocationAfter(old(auth.browser.location), reply)
    {
      isSubmitting := true;
      serverError := None;
      var o := auth.Register(ToJson(data), reply);
      match o {
        case Resolved =>
          successMessage := Some(SUCCESS_MESSAGE);
        case Rejected(err) =>
          serverError := Some(ApiClient.ErrorText(err, SUBMIT_FALLBACK));
      }
      isSubmitting := false;
    }

    /** `handleSubmit(onSubmit)`: the schema runs first; only values that pass reach `onSubmit`. */
    method HandleSubmit(values: FormValues, isEmail: string -> bool, reply: ApiClient.Reply<()>)
      modifies this, auth, auth.browser
      ensures var parsed := Parse(values, isEmail);
        && (parsed.Failure? ==>
              && fieldErrors == parsed.error
              && isSubmitting == old(isSubmitting) && serverError == old(serverError)
              && successMessage == old(successMessage)
              && auth.token == old(auth.token) && auth.user == old(auth.user)
              && auth.isLoading == old(auth.isLoading) && auth.error == old(auth.error)
              && auth.browser.storage == old(auth.browser.storage)
              && auth.browser.location == old(auth.browser.location))
        && (parsed.Success? ==>
              && fieldErrors == {} && !isSubmitting
              && (reply.Ok? ==> successMessage == Some(SUCCESS_MESSAGE) && serverError.None?)
              && (reply.Failed? ==>
                    && successMessage == old(successMessage)
                    && serverError == Some(ApiClient.ErrorText(reply.error, SUBMIT_FALLBACK)))
              && auth.token == old(auth.token) && auth.user == old(auth.user) && !auth.isLoading
              && auth.error == (if reply.Ok? then None else Some(ApiClient.ErrorText(reply.error, AuthContext.REGISTER_FALLBACK)))
              && auth.browser.storage == ApiClient.StorageAfter(old(auth.browser.storage), reply)
              && auth.browser.location == ApiClient.LocationAfter(old(auth.browser.location), reply))
    {
      var parsed := Parse(values, isEmail);
      match parsed {
        case Failure(issues) =>
          fieldErrors := issues;
        case Success(data) =>
          fieldErrors := {};
          OnSubmit(data, reply);
      }
    }
  }
}
