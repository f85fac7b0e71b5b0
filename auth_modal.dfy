/** The sign-in modal (`client/src/components/modals/auth-modal.tsx`): the login and
    registration rules, the username sent on registration, and the register-then-login
    sequence. Request outcomes are inputs. */
module AuthModal {
  import opened Wrappers
  import opened Text
  import opened Forms

  const EmailInvalid: string := "Please enter a valid email address"
  const TooShort6: string := "Password must be at least 6 characters"
  const TermsRequired: string := "You must agree to the terms and conditions"

  /** The login form as submitted; `rememberMe` may be left out. */
  datatype LoginForm = LoginForm(email: string, password: string, rememberMe: Option<bool>)

  /** The parsed login value: `rememberMe` defaults to false. */
  datatype Login = Login(email: string, password: string, rememberMe: bool)

  function LoginIssues(f: LoginForm, isEmail: string -> bool): (r: seq<Issue>)
    ensures r == [] <==> isEmail(f.email) && |f.password| >= 6
    ensures Issue(Email, EmailInvalid) in r <==> !isEmail(f.email)
    ensures Issue(Password, TooShort6) in r <==> |f.password| < 6
  {
    Rule(isEmail(f.email), Email, EmailInvalid)
    + Rule(|f.password| >= 6, Password, TooShort6)
  }

  function ParseLogin(f: LoginForm, isEmail: string -> bool): (r: Option<Login>)
    ensures r.Some? <==> LoginIssues(f, isEmail) == []
    ensures r.Some? ==> r.value.email == f.email && r.value.password == f.password
    ensures r.Some? ==> (r.value.rememberMe <==> f.rememberMe == Some(true))
  {
    if LoginIssues(f, isEmail) == [] then Some(Login(f.email, f.password, f.rememberMe.GetOr(false))) else None
  }

  datatype RegisterForm = RegisterForm(firstName: string, lastName: string, email: string, password: string, terms: bool)

  function RegisterIssues(f: RegisterForm, isEmail: string -> bool): (r: seq<Issue>)
    ensures r == [] <==>
      f.firstName != "" && f.lastName != "" && isEmail(f.email)
      && StrongPasswordIssues(Password, f.password) == [] && f.terms
    ensures Issue(Terms, TermsRequired) in r <==> !f.terms
    ensures Issue(FirstName, FirstNameRequired) in r <==> f.firstName == ""
    ensures Issue(LastName, LastNameRequired) in r <==> f.lastName == ""
  {
    var names := Rule(f.firstName != "", FirstName, FirstNameRequired)
      + Rule(f.lastName != "", LastName, LastNameRequired);
    var email := Rule(isEmail(f.email), Email, EmailInvalid);
    var password := StrongPasswordIssues(Password, f.password);
    var terms := Rule(f.terms, Terms, TermsRequired);
    names + email + password + terms
  }

  /** `${firstName}.${lastName}`.toLowerCase(). */
  function Username(firstName: string, lastName: string): string {
    Lower(firstName + "." + lastName)
  }

  /** The username is each name lowercased around one dot, and is already lowercase. */
  lemma UsernameSpec(firstName: string, lastName: string)
    ensures Username(firstName, lastName) == Lower(firstName) + "." + Lower(lastName)
    ensures |Username(firstName, lastName)| == |firstName| + |lastName| + 1
    ensures Username(firstName, lastName)[|firstName|] == '.'
    ensures Lower(Username(firstName, lastName)) == Username(firstName, lastName)
  {
    LowerAppend(firstName, ".");
    LowerAppend(firstName + ".", lastName);
    assert Lower(".") == ".";
    LowerIdempotent(firstName + "." + lastName);
  }

  /** A request the modal sends. */
  datatype Request =
    | Register(username: string, email: string, password: string, firstName: string, lastName: string)
    | SignIn(email: string, password: string)

  datatype Outcome = Outcome(requests: seq<Request>, success: bool)

  /** `onRegisterSubmit`: register, and only if that succeeds, log in with the same
      email and password; success is reported only when both succeed. */
  function RegisterFlow(f: RegisterForm, registerOk: bool, loginOk: bool): (o: Outcome)
    ensures 1 <= |o.requests| <= 2
    ensures o.requests[0] == Register(Username(f.firstName, f.lastName), f.email, f.password, f.firstName, f.lastName)
    ensures |o.requests| == 2 <==> registerOk
    ensures |o.requests| == 2 ==> o.requests[1] == SignIn(f.email, f.password)
    ensures o.success <==> registerOk && loginOk
  {
    var register := Register(Username(f.firstName, f.lastName), f.email, f.password, f.firstName, f.lastName);
    if !registerOk then Outcome([register], false)
    else Outcome([register, SignIn(f.email, f.password)], loginOk)
  }

  /** The automatic login after a valid registration would itself pass the login
      form's rules: the same email, and a password long enough. */
  lemma AutoLoginIsValidLogin(f: RegisterForm, isEmail: string -> bool)
    requires RegisterIssues(f, isEmail) == []
    ensures LoginIssues(LoginForm(f.email, f.password, None), isEmail) == []
  {
    StrongPasswordIsLongEnough(Password, f.password);
  }
}
