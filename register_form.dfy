/**
  The sign-up form (client/src/pages/Register.tsx): the browser's checks of the
  required inputs, the handler's checks run before the registration request is sent,
  and the input handler that updates one field.
 */
module RegisterForm {
  import opened Wrappers

  datatype Form = Form(name: string, email: string, password: string, confirmPassword: string)

  /** The fields an input can name. */
  datatype Field = Name | Email | Password | ConfirmPassword

  /** What `authApi.register` is given: the confirmation stays on the client. */
  datatype Request = Request(name: string, email: string, password: string)

  datatype Outcome = PasswordsDiffer | PasswordTooShort | Send(request: Request)

  const MinPasswordLength: nat := 6

  /** `handleEmailRegister`'s checks: the mismatch first, then the length; only a form passing both is sent. */
  function Submit(f: Form): (r: Outcome)
    ensures f.password != f.confirmPassword ==> r == PasswordsDiffer
    ensures f.password == f.confirmPassword && |f.password| < MinPasswordLength ==> r == PasswordTooShort
    ensures r.Send? <==> f.password == f.confirmPassword && |f.password| >= MinPasswordLength
    ensures r.Send? ==> r.request == Request(f.name, f.email, f.password)
  {
    if f.password != f.confirmPassword then PasswordsDiffer
    else if |f.password| < MinPasswordLength then PasswordTooShort
    else Send(Request(f.name, f.email, f.password))
  }

  /**
    The browser's constraint validation, run before the submit handler: each of the
    four inputs is `required` (an empty value blocks), the email input has type
    "email" (a value that is not a well-formed address blocks; the address grammar is
    a parameter), and the terms checkbox is `required` (unchecked blocks).
   */
  predicate BrowserAccepts(f: Form, agreedToTerms: bool, wellFormedEmail: string -> bool)
  {
    f.name != "" && f.email != "" && f.password != "" && f.confirmPassword != "" &&
    wellFormedEmail(f.email) && agreedToTerms
  }

  /**
    Pressing "Create account": None when the browser blocks the submit and the handler
    never runs; otherwise the handler's outcome.
   */
  function SubmitForm(f: Form, agreedToTerms: bool, wellFormedEmail: string -> bool): (r: Option<Outcome>)
    ensures r.None? <==> !BrowserAccepts(f, agreedToTerms, wellFormedEmail)
    ensures r.Some? ==> r.value == Submit(f)
  {
    if BrowserAccepts(f, agreedToTerms, wellFormedEmail) then Some(Submit(f)) else None
  }

  /**
    A registration request only ever leaves the page with a name, a well-formed email,
    a password of at least 6 characters and the terms accepted; the checks in the
    handler and in the browser together are exactly what lets it through.
   */
  lemma SentRequestsAreComplete(f: Form, agreedToTerms: bool, wellFormedEmail: string -> bool)
    ensures (var r := SubmitForm(f, agreedToTerms, wellFormedEmail); r.Some? && r.value.Send?) <==>
      f.name != "" && wellFormedEmail(f.email) && f.email != "" && agreedToTerms &&
      f.password == f.confirmPassword && |f.password| >= MinPasswordLength
  {
  }

  function Get(f: Form, field: Field): string
  {
    match field
    case Name => f.name
    case Email => f.email
    case Password => f.password
    case ConfirmPassword => f.confirmPassword
  }

  /** `handleInputChange`: the named field takes the new value and every other field is kept. */
  function InputChange(f: Form, field: Field, value: string): (r: Form)
    ensures Get(r, field) == value
    ensures forall g :: g != field ==> Get(r, g) == Get(f, g)
  {
    match field
    case Name => f.(name := value)
    case Email => f.(email := value)
    case Password => f.(password := value)
    case ConfirmPassword => f.(confirmPassword := value)
  }

  /**
    Typing the same long enough password into both password inputs, in either order,
    makes the form send exactly the name, email and that password.
   */
  lemma MatchingPasswordsSend(f: Form, pw: string, passwordFirst: bool)
    requires |pw| >= MinPasswordLength
    ensures var g := if passwordFirst then InputChange(InputChange(f, Password, pw), ConfirmPassword, pw)
                     else InputChange(InputChange(f, ConfirmPassword, pw), Password, pw);
            Submit(g) == Send(Request(f.name, f.email, pw))
  {
    var g := if passwordFirst then InputChange(InputChange(f, Password, pw), ConfirmPassword, pw)
             else InputChange(InputChange(f, ConfirmPassword, pw), Password, pw);
    assert Get(g, Name) == f.name && Get(g, Email) == f.email;
    assert Get(g, Password) == pw && Get(g, ConfirmPassword) == pw;
  }
}
