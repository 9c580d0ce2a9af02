/**
 * The sign-in page (frontend/src/app/pages/login/LoginPage.tsx): form validation, the token
 * handling on submit and the redirect for a session that is already signed in. The login call
 * is an input.
 */
module LoginPage {
  import opened Wrappers
  import Strs
  import Preferences
  import AppRoutes

  const EMAIL_REQUIRED: string := "Email is required"
  const EMAIL_INVALID: string := "Email address is invalid"
  const PASSWORD_REQUIRED: string := "Password is required"
  const PASSWORD_TOO_SHORT: string := "Password must be at least 6 characters"
  const MIN_PASSWORD_LENGTH: nat := 6

  /** The errors object; a missing key is `None`. */
  datatype FormErrors = FormErrors(email: Option<string>, password: Option<string>)

  /**
   * The awaited login mutation: a `data` payload, an `error`, or a throw. An error or a thrown
   * value carries `data.detail` as `Some`; one without `data` (a fetch failure) is `None`, and
   * reading `error.data.detail` on it throws. A `data` without `detail` (a body that is not JSON,
   * say) would set the message to `undefined`, which a string cannot hold; that reply is not
   * modelled.
   */
  datatype LoginReply =
    | LoginData(access: Option<string>, refresh: Option<string>)
    | LoginError(detail: Option<string>)
    | LoginThrew(detail: Option<string>)

  /**
   * The submit handler's promise rejects: the `error.data.detail` read throws in the `try` and
   * again in the `catch`, so neither the message nor `setSubmitting(false)` is reached.
   */
  predicate Rejects(reply: LoginReply)
  {
    (reply.LoginError? || reply.LoginThrew?) && reply.detail.None?
  }

  /** `\S`: a character outside the JavaScript whitespace class. */
  predicate NonSpace(c: char)
  {
    !Strs.IsJsSpace(c)
  }

  /**
   * The regular expression `\S+@\S+\.\S+` matches with its `@` at `at` and its `.` at `dot`: a
   * non-space character just before the `@`, at least one non-space character between the two, all
   * of them non-space, and a non-space character just after the `.`.
   */
  predicate MatchAt(s: string, at: int, dot: int)
  {
    && 1 <= at && at + 2 <= dot && dot + 2 <= |s|
    && s[at] == '@' && s[dot] == '.'
    && NonSpace(s[at - 1]) && NonSpace(s[dot + 1])
    && forall k :: at < k < dot ==> NonSpace(s[k])
  }

  /** `/\S+@\S+\.\S+/.test(s)`: the pattern matches somewhere in the string. */
  predicate EmailShaped(s: string)
  {
    exists at, dot | 0 <= at < dot < |s| :: MatchAt(s, at, dot)
  }

  /** `validateForm`. */
  function ValidateForm(email: string, password: string): (r: FormErrors)
    ensures r.email.Some? <==> email == "" || !EmailShaped(email)
    ensures r.email == Some(EMAIL_REQUIRED) <==> email == ""
    ensures r.password.Some? <==> |password| < MIN_PASSWORD_LENGTH
    ensures r.password == Some(PASSWORD_REQUIRED) <==> password == ""
  {
    var emailError :=
      if email == "" then Some(EMAIL_REQUIRED)
      else if !EmailShaped(email) then Some(EMAIL_INVALID)
      else None;
    var passwordError :=
      if password == "" then Some(PASSWORD_REQUIRED)
      else if |password| < MIN_PASSWORD_LENGTH then Some(PASSWORD_TOO_SHORT)
      else None;
    FormErrors(emailError, passwordError)
  }

  /** The form is accepted exactly when the email has the pattern and the password six characters. */
  lemma ValidIff(email: string, password: string)
    ensures ValidateForm(email, password) == FormErrors(None, None) <==>
      EmailShaped(email) && |password| >= MIN_PASSWORD_LENGTH
  {
    if EmailShaped(email) {
      var at, dot :| 0 <= at < dot < |email| && MatchAt(email, at, dot);
      assert email != "";
    }
  }

  /** Each field is checked on its own: emptiness first, then its shape or length. */
  lemma FieldMessages(email: string, password: string)
    ensures email == "" ==> ValidateForm(email, password).email == Some(EMAIL_REQUIRED)
    ensures email != "" && !EmailShaped(email) ==> ValidateForm(email, password).email == Some(EMAIL_INVALID)
    ensures password == "" ==> ValidateForm(email, password).password == Some(PASSWORD_REQUIRED)
    ensures 0 < |password| < MIN_PASSWORD_LENGTH ==> ValidateForm(email, password).password == Some(PASSWORD_TOO_SHORT)
    ensures ValidateForm(email, password).password == ValidateForm("", password).password
    ensures ValidateForm(email, password).email == ValidateForm(email, "").email
  {
  }

  lemma WellFormedAddress()
    ensures EmailShaped("carer@slc.org")
  {
    assert MatchAt("carer@slc.org", 5, 9);
  }

  /** Without a dot after the `@` the pattern does not match. */
  lemma NoDotAfterAt()
    ensures !EmailShaped("carer@slc")
  {
    var s := "carer@slc";
    forall at, dot | 0 <= at < dot < |s|
      ensures !MatchAt(s, at, dot)
    {
      if s[at] == '@' {
        assert at == 5;
      }
    }
  }

  /** A space right before the `@` breaks the match. */
  lemma SpaceBeforeAt()
    ensures !EmailShaped("carer @slc.org")
  {
    var s := "carer @slc.org";
    forall at, dot | 0 <= at < dot < |s|
      ensures !MatchAt(s, at, dot)
    {
      if s[at] == '@' {
        assert at == 6;
        assert !NonSpace(s[5]);
      }
    }
  }

  /** The already-signed-in effect: with both tokens present, go to the dashboard. */
  function RedirectOnLoad(apiToken: Option<string>, refreshToken: Option<string>): (r: Option<string>)
    ensures r.Some? <==> apiToken.Some? && apiToken.value != "" && refreshToken.Some? && refreshToken.value != ""
    ensures r.Some? ==> r.value == AppRoutes.DASHBOARD
  {
    if apiToken.Some? && apiToken.value != "" && refreshToken.Some? && refreshToken.value != "" then
      Some(AppRoutes.DASHBOARD)
    else None
  }

  /** The page's own state besides the form fields. */
  class Page {
    var errorMessage: string
    var navigatedTo: Option<string>
    var isSubmitting: bool

    constructor ()
      ensures errorMessage == "" && navigatedTo.None? && !isSubmitting
    {
      errorMessage := "";
      navigatedTo := None;
      isSubmitting := false;
    }

    /**
     * `onSubmitForm`: both tokens are cleared before the call, which sends the lowercased email
     * as the user name. `sent` is the credentials pair passed to the login call; `rejected` says
     * the handler's promise rejects before `setSubmitting(false)`.
     */
    method OnSubmitForm(prefs: Preferences.PreferencesState, email: string, password: string,
                        login: (string, string) -> LoginReply)
      returns (sent: (string, string), rejected: bool)
      modifies this, prefs
      ensures sent == (Strs.Lower(email), password)
      ensures var reply := login(sent.0, sent.1);
        match reply
        case LoginData(access, refresh) =>
          if access.Some? && access.value != "" then
            && prefs.apiToken == access && prefs.refreshToken == refresh
            && navigatedTo == Some(AppRoutes.DASHBOARD) && errorMessage == old(errorMessage)
          else
            && prefs.apiToken.None? && prefs.refreshToken.None?
            && navigatedTo == old(navigatedTo) && errorMessage == old(errorMessage)
        case LoginError(detail) =>
          && prefs.apiToken.None? && prefs.refreshToken.None? && navigatedTo == old(navigatedTo)
          && errorMessage == (if detail.Some? then detail.value else old(errorMessage))
        case LoginThrew(detail) =>
          && prefs.apiToken.None? && prefs.refreshToken.None? && navigatedTo == old(navigatedTo)
          && errorMessage == (if detail.Some? then detail.value else old(errorMessage))
      ensures rejected <==> Rejects(login(sent.0, sent.1))
      ensures isSubmitting == (if rejected then old(isSubmitting) else false)
      ensures prefs.userAvatarId == old(prefs.userAvatarId) && prefs.seenDialogs == old(prefs.seenDialogs)
      ensures prefs.chatSettings == old(prefs.chatSettings)
    {
      prefs.SetApiToken(None);
      prefs.SetRefreshToken(None);
      var username := Strs.Lower(email);
      sent := (username, password);
      var response := login(username, password);
      match response {
        case LoginData(access, refresh) =>
          if access.Some? && access.value != "" {
            prefs.SetApiToken(access);
            prefs.SetRefreshToken(refresh);
            navigatedTo := Some(AppRoutes.DASHBOARD);
          }
        case LoginError(detail) =>
          if detail.None? {
            // `error.data.detail` throws; the `catch` reads `data.detail` of that TypeError and throws too.
            return sent, true;
          }
          errorMessage := detail.value;
        case LoginThrew(detail) =>
          if detail.None? {
            return sent, true;
          }
          errorMessage := detail.value;
      }
      isSubmitting := false;
      rejected := false;
    }
  }
}
