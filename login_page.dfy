/** The login page (src/app/page.tsx): its form schema, and `handleLogin`,
    which signs the account in, lets only administrators through to `/admin`
    and maps the server's error messages to the alert shown. */
module LoginPage {
  import opened Wrappers
  import AuthContext

  /** The schema's messages for an empty field; `None` when the field passes. */
  datatype FormErrors = FormErrors(accountId: Option<string>, password: Option<string>)

  function ValidateLogin(accountId: string, password: string): (e: FormErrors)
    ensures e.accountId.Some? <==> accountId == ""
    ensures e.password.Some? <==> password == ""
    ensures e.accountId.Some? ==> e.accountId.value == "Please enter your account ID."
    ensures e.password.Some? ==> e.password.value == "Please enter your password."
  {
    FormErrors(
      if |accountId| < 1 then Some("Please enter your account ID.") else None,
      if |password| < 1 then Some("Please enter your password.") else None)
  }

  predicate Passes(e: FormErrors) {
    e.accountId.None? && e.password.None?
  }

  /** How the login request ends: the user and token it returns, an error
      response carrying `data.message`, or an error without a response. */
  datatype LoginResponse =
    | Success(user: AuthContext.SessionUser, token: string)
    | Rejected(message: string)
    | NoResponse

  const WrongCredentials := "Wrong account ID or password. Please try again."
  const NoAccount := "Account do not exists. Please try again."

  /** What the page shows after `handleLogin`: whether the alert is up, its
      text, whether the spinner still turns, and the route it replaces. */
  datatype Feedback = Feedback(errorAlert: bool, errorDescription: string, loading: bool, redirect: Option<string>)

  function LoginFeedback(response: LoginResponse, errorAlert: bool, errorDescription: string): (f: Feedback)
    ensures f.redirect.Some? ==> f.redirect.value == "/admin"
  {
    match response
    case Success(user, _) =>
      if user.role == Some("Admin") then Feedback(false, errorDescription, true, Some("/admin"))
      else Feedback(true, WrongCredentials, false, None)
    case Rejected(message) =>
      if message == "Student does not exists" then Feedback(true, NoAccount, false, None)
      else if message == "Invalid id or password" then Feedback(true, WrongCredentials, false, None)
      else Feedback(errorAlert, errorDescription, false, None)
    case NoResponse => Feedback(errorAlert, errorDescription, false, None)
  }

  /** Only an administrator's sign-in leaves the page, and only it keeps the
      spinner turning; it also hides the alert. */
  lemma OnlyAdminsProceed(response: LoginResponse, alert: bool, description: string)
    ensures var f := LoginFeedback(response, alert, description);
      && (f.redirect.Some? <==> response.Success? && response.user.role == Some("Admin"))
      && (f.loading <==> f.redirect.Some?)
      && (f.redirect.Some? ==> !f.errorAlert)
  {
  }

  /** A new alert is raised exactly for a non-administrator's sign-in and for
      the two error messages the page knows, and its text is one of two. */
  lemma AlertRaised(response: LoginResponse, description: string)
    ensures var f := LoginFeedback(response, false, description);
      && (f.errorAlert <==>
           (response.Success? && response.user.role != Some("Admin"))
           || (response.Rejected? && response.message in {"Student does not exists", "Invalid id or password"}))
      && (f.errorAlert ==> f.errorDescription in {WrongCredentials, NoAccount})
  {
  }

  /** Which text each outcome puts in the alert: the unknown account gets its
      own message, a wrong password and a non-administrator's sign-in share
      the other, and any other error leaves the alert as it was. */
  lemma ErrorMessages(response: LoginResponse, alert: bool, description: string)
    ensures response == Rejected("Student does not exists") ==>
      LoginFeedback(response, alert, description) == Feedback(true, NoAccount, false, None)
    ensures response == Rejected("Invalid id or password") ==>
      LoginFeedback(response, alert, description) == Feedback(true, WrongCredentials, false, None)
    ensures response.Success? && response.user.role != Some("Admin") ==>
      LoginFeedback(response, alert, description) == Feedback(true, WrongCredentials, false, None)
    ensures (response.Rejected? && response.message != "Student does not exists"
             && response.message != "Invalid id or password") || response.NoResponse? ==>
      LoginFeedback(response, alert, description) == Feedback(alert, description, false, None)
    ensures NoAccount != WrongCredentials
  {
  }

  /** The page's state; `session` is the provider's context it signs into. */
  class Page {
    const session: AuthContext.Session
    var loading: bool
    var errorAlert: bool
    var errorDescription: string
    var formErrors: FormErrors
    var routes: seq<string>

    constructor (session: AuthContext.Session)
      ensures this.session == session
      ensures !loading && !errorAlert && errorDescription == "" && routes == []
      ensures formErrors == FormErrors(None, None)
    {
      this.session := session;
      loading, errorAlert, errorDescription := false, false, "";
      formErrors, routes := FormErrors(None, None), [];
    }

    /** `handleLogin`. The session is signed in before the role is looked at,
        so a non-administrator who is turned away stays signed in. */
    method HandleLogin(response: LoginResponse)
      requires session.Valid()
      modifies this`loading, this`errorAlert, this`errorDescription, this`routes, session
      ensures session.Valid()
      ensures var f := LoginFeedback(response, old(errorAlert), old(errorDescription));
        && errorAlert == f.errorAlert && errorDescription == f.errorDescription && loading == f.loading
        && routes == old(routes) + (if f.redirect.Some? then [f.redirect.value] else [])
      ensures response.Success? ==>
        && session.userCred == Some(response.user) && session.token == Some(response.token)
        && session.isAuthenticated
        && session.storage == AuthContext.StoreSession(old(session.storage), response.user, response.token)
      ensures !response.Success? ==>
        && session.userCred == old(session.userCred) && session.token == old(session.token)
        && session.isAuthenticated == old(session.isAuthenticated) && session.storage == old(session.storage)
      ensures session.sessionActive == old(session.sessionActive)
      ensures session.pendingRedirect == old(session.pendingRedirect) && session.routes == old(session.routes)
    {
      loading := true;
      match response {
        case Success(user, token) =>
          session.Login(user, token);
          if user.role == Some("Admin") {
            routes := routes + ["/admin"];
            errorAlert := false;
          } else {
            errorAlert := true;
            errorDescription := WrongCredentials;
            loading := false;
          }
        case Rejected(message) =>
          loading := false;
          if message == "Student does not exists" {
            errorDescription := NoAccount;
            errorAlert := true;
          } else if message == "Invalid id or password" {
            errorDescription := WrongCredentials;
            errorAlert := true;
          }
        case NoResponse =>
          loading := false;
      }
    }

    /** The Login button: `handleSubmit` validates first and calls
        `handleLogin` only when the form passes. */
    method Submit(accountId: string, password: string, response: LoginResponse)
      requires session.Valid()
      modifies this`loading, this`errorAlert, this`errorDescription, this`routes, this`formErrors, session
      ensures session.Valid()
      ensures formErrors == ValidateLogin(accountId, password)
      ensures !Passes(formErrors) ==>
        && loading == old(loading) && errorAlert == old(errorAlert)
        && errorDescription == old(errorDescription) && routes == old(routes)
        && session.storage == old(session.storage) && session.userCred == old(session.userCred)
        && session.token == old(session.token) && session.isAuthenticated == old(session.isAuthenticated)
      ensures Passes(formErrors) ==>
        var f := LoginFeedback(response, old(errorAlert), old(errorDescription));
        && errorAlert == f.errorAlert && errorDescription == f.errorDescription && loading == f.loading
        && routes == old(routes) + (if f.redirect.Some? then [f.redirect.value] else [])
      ensures Passes(formErrors) && response.Success? ==>
        && session.userCred == Some(response.user) && session.token == Some(response.token)
        && session.isAuthenticated
        && session.storage == AuthContext.StoreSession(old(session.storage), response.user, response.token)
      ensures Passes(formErrors) && !response.Success? ==>
        && session.userCred == old(session.userCred) && session.token == old(session.token)
        && session.isAuthenticated == old(session.isAuthenticated) && session.storage == old(session.storage)
      ensures session.sessionActive == old(session.sessionActive)
      ensures session.pendingRedirect == old(session.pendingRedirect) && session.routes == old(session.routes)
    {
      formErrors := ValidateLogin(accountId, password);
      if Passes(formErrors) {
        HandleLogin(response);
      }
    }
  }
}
