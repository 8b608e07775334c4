/**
 * The sign-up form: the Yup schema of its six fields and the body of the
 * register request. Yup's built-in `.email()` check belongs to the library, so
 * its verdict on the email field is an input (`emailAccepted`).
 */
module Signup {
  import opened Optional
  import opened Text
  import opened Patterns

  const FirstNameRequired := "First name is required"
  const FirstNameInvalid := "First name must be at least 3 letters and contain only alphabetic characters."
  const LastNameRequired := "Last name is required"
  const LastNameInvalid := "Last name must be at least 3 letters and contain only alphabetic characters."
  const PhoneRequired := "Phone number is required"
  const PhoneInvalid := "Phone number must be a valid Egyptian number (e.g., +201063361951 or 01063361951)."
  const EmailRequired := "Email is required"
  const EmailInvalid := "Please enter a valid email address."
  const ClassMessage :=
    "Password must include at least one uppercase letter, one lowercase letter, one number, and one special character."

  /** `.required(requiredMessage).matches(/^[A-Za-z]{3,}$/, invalidMessage)`. */
  function NameError(v: string, requiredMessage: string, invalidMessage: string): (r: Option<string>)
    ensures r == None <==> NamePattern(v)
    ensures v == "" ==> r == Some(requiredMessage)
    ensures v != "" && r != None ==> r == Some(invalidMessage)
  {
    if v == "" then Some(requiredMessage)
    else if !NamePattern(v) then Some(invalidMessage)
    else None
  }

  /** `.required(…).matches(/^(\+20|0)?1\d{9}$/, …)` on the phone number. */
  function PhoneError(v: string): (r: Option<string>)
    ensures r == None <==> PhonePattern(v)
    ensures v == "" ==> r == Some(PhoneRequired)
    ensures v != "" && r != None ==> r == Some(PhoneInvalid)
  {
    if v == "" then Some(PhoneRequired)
    else if !PhonePattern(v) then Some(PhoneInvalid)
    else None
  }

  /** `.required(…).email(…)`, the library's verdict given as `emailAccepted`. */
  function EmailError(v: string, emailAccepted: bool): (r: Option<string>)
    ensures r == None <==> v != "" && emailAccepted
    ensures v == "" ==> r == Some(EmailRequired)
    ensures v != "" && !emailAccepted ==> r == Some(EmailInvalid)
  {
    if v == "" then Some(EmailRequired)
    else if !emailAccepted then Some(EmailInvalid)
    else None
  }

  /** The form's values. */
  datatype SignupValues = SignupValues(
    firstName: string,
    lastName: string,
    phone: string,
    email: string,
    password: string,
    confirmPassword: string)

  /** The rules of one field, all of them at once: what a field must satisfy to report nothing. */
  predicate FieldValid(v: SignupValues, emailAccepted: bool, field: string) {
    match field
    case "firstName" => NamePattern(v.firstName)
    case "lastName" => NamePattern(v.lastName)
    case "phone" => PhonePattern(v.phone)
    case "email" => v.email != "" && emailAccepted
    case "password" => |v.password| >= 8 && HasAllClasses(v.password)
    case "confirmPassword" => v.confirmPassword != "" && v.confirmPassword == v.password
    case _ => true
  }

  /** The first failing rule's message of one field, `None` for a field that passes or does not exist. */
  function FieldError(v: SignupValues, emailAccepted: bool, field: string): (r: Option<string>)
    ensures field !in Fields ==> r == None
    ensures field in Fields ==> (r == None <==> FieldValid(v, emailAccepted, field))
  {
    match field
    case "firstName" => NameError(v.firstName, FirstNameRequired, FirstNameInvalid)
    case "lastName" => NameError(v.lastName, LastNameRequired, LastNameInvalid)
    case "phone" => PhoneError(v.phone)
    case "email" => EmailError(v.email, emailAccepted)
    case "password" => PasswordError(v.password, ClassMessage)
    case "confirmPassword" => ConfirmError(v.confirmPassword, v.password)
    case _ => None
  }

  const Fields: set<string> := {"firstName", "lastName", "phone", "email", "password", "confirmPassword"}

  /** What the schema reports for a set of values: one message per failing field. */
  function SignupErrors(v: SignupValues, emailAccepted: bool): (r: map<string, string>)
    ensures ErrorOf(r, "firstName") == NameError(v.firstName, FirstNameRequired, FirstNameInvalid)
    ensures ErrorOf(r, "lastName") == NameError(v.lastName, LastNameRequired, LastNameInvalid)
    ensures ErrorOf(r, "phone") == PhoneError(v.phone)
    ensures ErrorOf(r, "email") == EmailError(v.email, emailAccepted)
    ensures ErrorOf(r, "password") == PasswordError(v.password, ClassMessage)
    ensures ErrorOf(r, "confirmPassword") == ConfirmError(v.confirmPassword, v.password)
    ensures r.Keys <= Fields
  {
    map f | f in Fields && FieldError(v, emailAccepted, f).Some? :: FieldError(v, emailAccepted, f).value
  }

  /** The values pass the schema exactly when every field passes its own rules. */
  predicate SignupValid(v: SignupValues, emailAccepted: bool) {
    && NamePattern(v.firstName) && NamePattern(v.lastName)
    && PhonePattern(v.phone)
    && v.email != "" && emailAccepted
    && |v.password| >= 8 && HasAllClasses(v.password)
    && v.confirmPassword == v.password
  }

  lemma SignupValidIff(v: SignupValues, emailAccepted: bool)
    ensures SignupErrors(v, emailAccepted) == map[] <==> SignupValid(v, emailAccepted)
  {
    var r := SignupErrors(v, emailAccepted);
    if r != map[] {
      var f :| f in r;
      assert ErrorOf(r, f).Some?;
    }
  }

  /** The body posted to the register endpoint. */
  datatype RegisterPayload = RegisterPayload(
    firstName: string,
    lastName: string,
    email: string,
    phoneNumber: string,
    password: string,
    confirmPassword: string)

  /** The payload mapping: every field copied, `phone` sent as `phoneNumber`. */
  function ToPayload(v: SignupValues): (r: RegisterPayload)
    ensures FromPayload(r) == v && r.phoneNumber == v.phone
  {
    RegisterPayload(v.firstName, v.lastName, v.email, v.phone, v.password, v.confirmPassword)
  }

  /** The form values a payload was built from. */
  function FromPayload(p: RegisterPayload): SignupValues {
    SignupValues(p.firstName, p.lastName, p.phoneNumber, p.email, p.password, p.confirmPassword)
  }

  /** The mapping only renames: it loses nothing and adds nothing. */
  lemma PayloadRoundTrip(v: SignupValues, p: RegisterPayload)
    ensures FromPayload(ToPayload(v)) == v
    ensures ToPayload(FromPayload(p)) == p
    ensures ToPayload(v).phoneNumber == v.phone
  {
  }

  /** Formik calls `onSubmit` only when validation passes. */
  function SignupSubmit(v: SignupValues, emailAccepted: bool): (r: Option<RegisterPayload>)
    ensures r.Some? <==> SignupErrors(v, emailAccepted) == map[]
    ensures r.Some? ==> FromPayload(r.value) == v
  {
    if SignupErrors(v, emailAccepted) == map[] then Some(ToPayload(v)) else None
  }

  /**
   * A register request only ever carries letter-only names of 3 or more letters,
   * an Egyptian mobile number of 10, 11 or 13 characters, a password that meets
   * the rule, and a confirmation equal to it.
   */
  lemma SubmittedPayloadIsValid(v: SignupValues, emailAccepted: bool)
    requires SignupSubmit(v, emailAccepted).Some?
    ensures var p := SignupSubmit(v, emailAccepted).value;
            && NamePattern(p.firstName) && NamePattern(p.lastName)
            && (|p.phoneNumber| == 10 || |p.phoneNumber| == 11 || |p.phoneNumber| == 13)
            && PasswordError(p.password, ClassMessage) == None
            && p.confirmPassword == p.password
  {
    SignupValidIff(v, emailAccepted);
    PhonePatternShape(v.phone);
  }
}
