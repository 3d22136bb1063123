/** The sign-in and sign-up forms of the dashboard (src/pages/AuthPage.tsx): the validation rules of
    their two schemas, the call each valid form makes, and the redirect of a signed-in user. The
    e-mail format check of the schema library is an input. */
module AuthPage {
  import opened Wrappers

  datatype Field = Email | Password | Name | ConfirmPassword

  /** A validation error, attached to a field. */
  datatype Issue = Issue(path: Field, message: string)

  const InvalidEmail := "Invalid email address"
  const ShortPassword := "Password must be at least 8 characters long"
  const ShortName := "Name must be at least 2 characters long"
  const Mismatch := "Passwords don't match"

  datatype SignInValues = SignInValues(email: string, password: string)

  datatype SignUpValues = SignUpValues(name: string, email: string, password: string, confirmPassword: string)

  function IssueIf(failed: bool, i: Issue): (r: seq<Issue>)
    ensures r == [] <==> !failed
  {
    if failed then [i] else []
  }

  /** `signInSchema`: an e-mail address and a password of at least 8 characters, checked field by
      field. */
  function SignInIssues(v: SignInValues, isEmail: string -> bool): (r: seq<Issue>)
    ensures r == [] <==> isEmail(v.email) && |v.password| >= 8
    ensures Issue(Email, InvalidEmail) in r <==> !isEmail(v.email)
    ensures Issue(Password, ShortPassword) in r <==> |v.password| < 8
  {
    IssueIf(!isEmail(v.email), Issue(Email, InvalidEmail)) + IssueIf(|v.password| < 8, Issue(Password, ShortPassword))
  }

  /** `signUpSchema`: the sign-in rules, a name of at least 2 characters and a confirmation of at
      least 8, then the check that the two passwords agree, reported on the confirmation. */
  function SignUpIssues(v: SignUpValues, isEmail: string -> bool): (r: seq<Issue>)
  {
    SignInIssues(SignInValues(v.email, v.password), isEmail)
    + IssueIf(|v.name| < 2, Issue(Name, ShortName))
    + IssueIf(|v.confirmPassword| < 8, Issue(ConfirmPassword, ShortPassword))
    + IssueIf(v.password != v.confirmPassword, Issue(ConfirmPassword, Mismatch))
  }

  /** A sign-up form passes iff its e-mail and password pass the sign-in rules, the name has at least 2
      characters, the confirmation at least 8, and it equals the password; a mismatch is the one error
      reported on the confirmation field with its own message. */
  lemma SignUpRules(v: SignUpValues, isEmail: string -> bool)
    ensures SignUpIssues(v, isEmail) == [] <==>
      SignInIssues(SignInValues(v.email, v.password), isEmail) == [] && |v.name| >= 2 && |v.confirmPassword| >= 8
      && v.password == v.confirmPassword
    ensures Issue(ConfirmPassword, Mismatch) in SignUpIssues(v, isEmail) <==> v.password != v.confirmPassword
    ensures Issue(Name, ShortName) in SignUpIssues(v, isEmail) <==> |v.name| < 2
  {
    var a := SignInIssues(SignInValues(v.email, v.password), isEmail);
    var b := IssueIf(|v.name| < 2, Issue(Name, ShortName));
    var c := IssueIf(|v.confirmPassword| < 8, Issue(ConfirmPassword, ShortPassword));
    var d := IssueIf(v.password != v.confirmPassword, Issue(ConfirmPassword, Mismatch));
    assert SignUpIssues(v, isEmail) == a + b + c + d;
    assert Issue(ConfirmPassword, Mismatch) !in a && Issue(ConfirmPassword, Mismatch) !in b;
    assert Issue(ConfirmPassword, Mismatch) !in c;
    assert Issue(Name, ShortName) !in a && Issue(Name, ShortName) !in c && Issue(Name, ShortName) !in d;
  }

  /** What a valid form asks the auth context to do. */
  datatype Call = SignIn(email: string, password: string) | SignUp(name: string, email: string, password: string)

  /** `onSignIn`, reached only through a valid form. */
  function SubmitSignIn(v: SignInValues, isEmail: string -> bool): (c: Option<Call>)
    ensures c.Some? <==> SignInIssues(v, isEmail) == []
    ensures c.Some? ==> c.value == SignIn(v.email, v.password)
  {
    if SignInIssues(v, isEmail) == [] then Some(SignIn(v.email, v.password)) else None
  }

  /** `onSignUp`, reached only through a valid form; the confirmation is not sent. */
  function SubmitSignUp(v: SignUpValues, isEmail: string -> bool): (c: Option<Call>)
    ensures c.Some? <==> SignUpIssues(v, isEmail) == []
    ensures c.Some? ==> c.value == SignUp(v.name, v.email, v.password)
  {
    if SignUpIssues(v, isEmail) == [] then Some(SignUp(v.name, v.email, v.password)) else None
  }

  /** Whoever signs up can sign in with the same address and password. */
  lemma SignedUpCanSignIn(v: SignUpValues, isEmail: string -> bool)
    requires SubmitSignUp(v, isEmail).Some?
    ensures SubmitSignIn(SignInValues(v.email, v.password), isEmail) == Some(SignIn(v.email, v.password))
  {
    SignUpRules(v, isEmail);
  }

  datatype AuthMode = SignInMode | SignUpMode

  datatype Screen = Navigate(to: string) | Forms(mode: AuthMode)

  /** A signed-in user is sent to the dashboard; anyone else sees the forms. */
  function Render(signedIn: bool, mode: AuthMode): (s: Screen)
    ensures s.Navigate? <==> signedIn
    ensures s.Navigate? ==> s.to == "/dashboard"
    ensures s.Forms? ==> s.mode == mode
  {
    if signedIn then Navigate("/dashboard") else Forms(mode)
  }
}
