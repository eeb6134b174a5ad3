/** The "Add User" dialog (src/components/modals/AddUserModal.tsx): its form
    schema, the account it signs up with the role's default password, the
    credential email, and how the sign-up's errors are shown. The schema's
    email check (`z.string().email()`) is a parameter. */
module AddUserModal {
  import opened Wrappers
  import opened Strings

  datatype Role = Student | Admin

  function RoleName(r: Role): string {
    match r
    case Student => "Student"
    case Admin => "Admin"
  }

  /** What the form holds; an email of `None` is a field left undefined. */
  datatype UserForm = UserForm(accountId: string, name: string, email: Option<string>, role: Role)

  /** The form after `reset`, which is also what an untouched form submits. */
  const BlankForm := UserForm("", "", Some(""), Student)

  datatype FormErrors = FormErrors(accountId: Option<string>, name: Option<string>, email: Option<string>)

  predicate Passes(e: FormErrors) {
    e.accountId.None? && e.name.None? && e.email.None?
  }

  /** The schema: an account ID of at least ten UTF-16 code units (zod's
      `.min(10)` compares `.length`), a name, and an email that, when present,
      passes the email check. */
  function ValidateUser(f: UserForm, isEmail: string -> bool): (e: FormErrors)
    ensures e.accountId.Some? <==> Utf16Length(f.accountId) < 10
    ensures e.name.Some? <==> f.name == ""
    ensures e.email.Some? <==> f.email.Some? && !isEmail(f.email.value)
    ensures e.accountId.Some? ==> e.accountId.value == "Account ID must have atleast 10 characters"
    ensures e.name.Some? ==> e.name.value == "Name is required"
    ensures e.email.Some? ==> e.email.value == "Invalid email"
  {
    FormErrors(
      if Utf16Length(f.accountId) < 10 then Some("Account ID must have atleast 10 characters") else None,
      if |f.name| < 1 then Some("Name is required") else None,
      if f.email.Some? && !isEmail(f.email.value) then Some("Invalid email") else None)
  }

  /** Five emoji make an account ID of ten code units, which the schema
      accepts. */
  lemma FiveEmojiAccountIdPasses(f: UserForm, isEmail: string -> bool)
    requires f.accountId == "\U{1F600}\U{1F600}\U{1F600}\U{1F600}\U{1F600}"
    ensures |f.accountId| == 5
    ensures ValidateUser(f, isEmail).accountId.None?
  {
    AstralCountsTwice(f.accountId);
  }

  /** The email field is marked optional, but an empty field holds "", which
      an email check that refuses "" (as zod's does) rejects: the form cannot
      be submitted without an address. */
  lemma EmptyEmailBlocks(f: UserForm, isEmail: string -> bool)
    requires f.email == Some("") && !isEmail("")
    ensures !Passes(ValidateUser(f, isEmail))
  {
  }

  /** The default password of a role, as the dialog's footer announces it. */
  function PasswordFor(r: Role): (p: string)
    ensures r == Student ==> p == "@Student01"
    ensures r == Admin ==> p == "@Admin01"
  {
    if r == Student then "@Student01" else "@Admin01"
  }

  /** The two roles get different passwords. */
  lemma PasswordsDiffer()
    ensures PasswordFor(Student) != PasswordFor(Admin)
  {
  }

  /** The `newUser` body of the sign-up request. */
  datatype NewUser = NewUser(accountId: string, username: string, email: Option<string>, password: string, role: string)

  function NewUserPayload(f: UserForm): (u: NewUser)
    ensures u.accountId == f.accountId && u.username == f.name && u.email == f.email
    ensures u.password == PasswordFor(f.role) && u.role == RoleName(f.role)
  {
    NewUser(f.accountId, f.name, f.email, PasswordFor(f.role), RoleName(f.role))
  }

  datatype CredentialMail = CredentialMail(to: Option<string>, subject: string, message: string)

  const CredentialSubject := "Your password for AirGuard App"

  /** The credential email as the component writes it: the Student password
      whatever the role. */
  function CredentialEmailAsWritten(f: UserForm): (m: CredentialMail)
    ensures m.to == f.email && m.subject == CredentialSubject
    ensures m.message == "Password: " + PasswordFor(Student)
  {
    CredentialMail(f.email, CredentialSubject, "Password: @Student01")
  }

  /** For an administrator the email as written names a password the new
      account does not have. */
  lemma AsWrittenMailsWrongPassword(f: UserForm)
    requires f.role == Admin
    ensures CredentialEmailAsWritten(f).message != "Password: " + NewUserPayload(f).password
  {
    assert ("Password: " + NewUserPayload(f).password)[10..] == "@Admin01";
  }

  /** The credential email with the role's password. */
  function CredentialEmail(f: UserForm): (m: CredentialMail)
    ensures m.to == f.email && m.subject == CredentialSubject
    ensures m.message == "Password: " + NewUserPayload(f).password
  {
    CredentialMail(f.email, CredentialSubject, "Password: " + PasswordFor(f.role))
  }

  /** For a student the corrected email is the one the component sends. */
  lemma CredentialEmailForStudents(f: UserForm)
    requires f.role == Student
    ensures CredentialEmail(f) == CredentialEmailAsWritten(f)
  {
  }

  /** `newUser.email != ""`: true also when the email is undefined, so only
      an email field left empty skips the credential email. */
  predicate SendsCredentials(f: UserForm)
    ensures SendsCredentials(f) <==> f.email.None? || |f.email.value| > 0
  {
    f.email != Some("")
  }

  /** How the sign-up request ends: created, an error response with or
      without a `data` body, or an error with no response at all. */
  datatype ErrorBody = ErrorBody(message: Option<string>, error: Option<string>)
  datatype SignUpResponse = Created | Rejected(data: Option<ErrorBody>) | NoResponse

  /** `data.message || data.error`. */
  function ErrorMessage(b: ErrorBody): (m: Option<string>)
    ensures b.message.Some? && b.message.value != "" ==> m == b.message
    ensures !(b.message.Some? && b.message.value != "") ==> m == b.error
  {
    if b.message.Some? && b.message.value != "" then b.message else b.error
  }

  predicate DuplicateAccount(r: SignUpResponse) {
    r.Rejected? && r.data.Some? && ErrorMessage(r.data.value) == Some("User already exists.")
  }

  /** The dialog's state. `fetchCalls` counts the calls of the parent's
      `fetch`, which reloads the table. */
  class Dialog {
    var open: bool
    var loading: bool
    var userExists: bool
    var form: UserForm
    var formErrors: FormErrors
    var toasts: seq<string>
    var signUps: seq<NewUser>
    var mails: seq<CredentialMail>
    var fetchCalls: nat

    constructor ()
      ensures !open && !loading && !userExists && form == BlankForm && formErrors == FormErrors(None, None, None)
      ensures toasts == [] && signUps == [] && mails == [] && fetchCalls == 0
    {
      open, loading, userExists, form := false, false, false, BlankForm;
      formErrors, toasts, signUps, mails, fetchCalls := FormErrors(None, None, None), [], [], [], 0;
    }

    /** The dialog's `onOpenChange` and the Add button. */
    method SetOpen(b: bool)
      modifies this`open
      ensures open == b
    {
      open := b;
    }

    /** Typing into the inputs or picking a role. */
    method EditForm(f: UserForm)
      modifies this`form
      ensures form == f
    {
      form := f;
    }

    /** `addUser`, mailing the credential email as written. A created account
        closes the dialog, mails the password unless the email is "", resets
        the form and reloads the table; a duplicate account ID shows its
        message; an error without a response closes the dialog with a toast;
        any other error changes nothing but the spinner. A failed credential
        email is ignored. */
    method AddUser(data: UserForm, response: SignUpResponse)
      modifies this`open, this`loading, this`userExists, this`form, this`toasts, this`signUps, this`mails, this`fetchCalls
      ensures !loading && signUps == old(signUps) + [NewUserPayload(data)]
      ensures response.Created? ==>
        && !open && !userExists && form == BlankForm && fetchCalls == old(fetchCalls) + 1
        && toasts == old(toasts) + ["User has been created."]
        && mails == old(mails) + (if SendsCredentials(data) then [CredentialEmailAsWritten(data)] else [])
      ensures response.Rejected? ==>
        && open == old(open) && userExists == DuplicateAccount(response) && form == old(form)
        && toasts == old(toasts) && mails == old(mails) && fetchCalls == old(fetchCalls)
      ensures response.NoResponse? ==>
        && !open && !userExists && form == old(form) && toasts == old(toasts) + ["Unknown error occurs..."]
        && mails == old(mails) && fetchCalls == old(fetchCalls)
    {
      loading := true;
      userExists := false;
      var newUser := NewUserPayload(data);
      signUps := signUps + [newUser];
      match response {
        case Created =>
          open := false;
          toasts := toasts + ["User has been created."];
          if SendsCredentials(data) {
            mails := mails + [CredentialEmailAsWritten(data)];
          }
          form := BlankForm;
          fetchCalls := fetchCalls + 1;
          loading := false;
        case Rejected(body) =>
          if body.Some? {
            if ErrorMessage(body.value) == Some("User already exists.") {
              userExists := true;
              loading := false;
            }
          }
        case NoResponse =>
          open := false;
          loading := false;
          toasts := toasts + ["Unknown error occurs..."];
      }
      loading := false;
    }

    /** The Submit button: `handleSubmit` validates the form and calls
        `addUser` only when it passes. */
    method Submit(isEmail: string -> bool, response: SignUpResponse)
      modifies this`open, this`loading, this`userExists, this`form, this`formErrors, this`toasts, this`signUps, this`mails, this`fetchCalls
      ensures formErrors == ValidateUser(old(form), isEmail)
      ensures !Passes(formErrors) ==>
        && open == old(open) && loading == old(loading) && userExists == old(userExists) && form == old(form)
        && signUps == old(signUps) && mails == old(mails) && fetchCalls == old(fetchCalls) && toasts == old(toasts)
      ensures Passes(formErrors) ==> !loading && signUps == old(signUps) + [NewUserPayload(old(form))]
      ensures Passes(formErrors) && response.Created? ==>
        && !open && !userExists && form == BlankForm && fetchCalls == old(fetchCalls) + 1
        && toasts == old(toasts) + ["User has been created."]
        && mails == old(mails) + (if SendsCredentials(old(form)) then [CredentialEmailAsWritten(old(form))] else [])
      ensures Passes(formErrors) && response.Rejected? ==>
        && open == old(open) && userExists == DuplicateAccount(response) && form == old(form)
        && toasts == old(toasts) && mails == old(mails) && fetchCalls == old(fetchCalls)
      ensures Passes(formErrors) && response.NoResponse? ==>
        && !open && !userExists && form == old(form) && toasts == old(toasts) + ["Unknown error occurs..."]
        && mails == old(mails) && fetchCalls == old(fetchCalls)
    {
      formErrors := ValidateUser(form, isEmail);
      if Passes(formErrors) {
        AddUser(form, response);
      }
    }
  }
}
