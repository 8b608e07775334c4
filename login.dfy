/**
 * The sign-in form: the Yup schema of its two fields, the disabled state of the
 * submit button, and the request body sent once the form validates. The axios
 * call, the stored token and the navigation are left to the caller.
 */
module Login {
  import opened Optional
  import opened Patterns

  const IdentifierRequired := "Username or email is required"
  const IdentifierInvalid := "Invalid email or username"
  const ClassMessage :=
    "Password must include at least one uppercase letter, one lowercase letter, one number, and one special character"

  /** The custom `test`: an identifier with an '@' must look like an email, any other like a user name. */
  predicate IdentifierAccepted(v: string)
    ensures IdentifierAccepted(v) ==> v != "" && NoSpace(v)
  {
    if '@' in v then EmailPattern(v) else UsernamePattern(v)
  }

  /** `.required(…).test("email", …)` on the identifier, first failing rule first. */
  function IdentifierError(v: string): (r: Option<string>)
    ensures v == "" ==> r == Some(IdentifierRequired)
    ensures v != "" ==> (r == None <==> IdentifierAccepted(v))
    ensures v != "" && r != None ==> r == Some(IdentifierInvalid)
  {
    if v == "" then Some(IdentifierRequired)
    else if !IdentifierAccepted(v) then Some(IdentifierInvalid)
    else None
  }

  /**
   * An identifier with an '@' is accepted exactly when it has the email shape: no
   * white space, a single '@' that is not first, and a dot inside the domain. One
   * without an '@' is accepted exactly when it has 3 to 20 characters from
   * `[A-Za-z0-9_.]`.
   */
  lemma IdentifierAcceptance(v: string)
    ensures '@' in v ==> (IdentifierError(v) == None <==> EmailShape(v))
    ensures '@' !in v ==>
              (IdentifierError(v) == None <==> 3 <= |v| <= 20 && forall i :: 0 <= i < |v| ==> IsUsernameChar(v[i]))
  {
    EmailPatternShape(v);
  }

  /** The form's values. */
  datatype LoginValues = LoginValues(email: string, password: string, rememberMe: bool)

  /** What the schema reports for a set of values: one message per failing field. */
  function LoginErrors(v: LoginValues): (r: map<string, string>)
    ensures ErrorOf(r, "email") == IdentifierError(v.email)
    ensures ErrorOf(r, "password") == PasswordError(v.password, ClassMessage)
    ensures r.Keys <= {"email", "password"}
  {
    Record(Record(map[], "email", IdentifierError(v.email)), "password", PasswordError(v.password, ClassMessage))
  }

  /** The values pass the schema exactly when both fields pass their own rules. */
  lemma LoginValidIff(v: LoginValues)
    ensures LoginErrors(v) == map[] <==>
              v.email != "" && IdentifierAccepted(v.email) && |v.password| >= 8 && HasAllClasses(v.password)
  {
    var r := LoginErrors(v);
    if r != map[] {
      var f :| f in r;
      assert ErrorOf(r, f).Some?;
    }
  }

  /** `!formik.isValid || formik.isSubmitting`, where Formik calls a form valid while its errors object is empty. */
  predicate SubmitDisabled(errors: map<string, string>, isSubmitting: bool)
    ensures isSubmitting ==> SubmitDisabled(errors, isSubmitting)
    ensures !SubmitDisabled(errors, isSubmitting) ==> errors == map[]
  {
    |errors| != 0 || isSubmitting
  }

  /**
   * Once the values have been validated, the button is disabled exactly when a
   * field fails or a submission is in flight. Before the first validation the
   * errors object is still empty, so the button starts enabled although the
   * empty initial values would fail.
   */
  lemma SubmitDisabledIff(v: LoginValues, isSubmitting: bool)
    ensures SubmitDisabled(LoginErrors(v), isSubmitting) <==>
              isSubmitting || IdentifierError(v.email).Some? || PasswordError(v.password, ClassMessage).Some?
    ensures !SubmitDisabled(map[], false) && LoginErrors(LoginValues("", "", false)) != map[]
  {
    LoginValidIff(v);
    assert ErrorOf(LoginErrors(LoginValues("", "", false)), "email").Some?;
  }

  /** The body posted to the login endpoint. */
  datatype LoginRequest = LoginRequest(email: string, password: string, rememberMe: bool)

  /** Formik calls `onSubmit` only when validation passes; it posts the three values as they are. */
  function LoginSubmit(v: LoginValues): (r: Option<LoginRequest>)
    ensures r.Some? <==> LoginErrors(v) == map[]
    ensures r.Some? ==> r.value.email == v.email && r.value.password == v.password
                        && r.value.rememberMe == v.rememberMe
  {
    if LoginErrors(v) == map[] then Some(LoginRequest(v.email, v.password, v.rememberMe)) else None
  }

  /** A request is only ever sent with an accepted identifier and a password of at least 8 characters. */
  lemma SubmittedRequestIsValid(v: LoginValues)
    requires LoginSubmit(v).Some?
    ensures IdentifierAccepted(LoginSubmit(v).value.email)
    ensures |LoginSubmit(v).value.password| >= 8 && HasAllClasses(LoginSubmit(v).value.password)
  {
    LoginValidIff(v);
  }
}
