/**
 * The forgot-password page: its email field and errors state, and the submit
 * handler that validates the address and then either stores the errors or moves
 * on to the "check your mail" page. The page also mirrors the typed address into
 * the shared auth context, which is not part of this model.
 */
module ForgetPassword {
  import opened Optional
  import opened Text
  import opened Patterns
  import Login

  const EmailRequired := "Email is required."
  const EmailInvalid := "Please enter a valid email address."
  const CheckMailRoute := "/checkmail"

  /**
   * The errors `handleSubmit` collects: the address must not be blank once
   * trimmed, and the untrimmed address must match the email pattern.
   */
  function ValidationErrors(email: string): (r: map<string, string>)
    ensures r.Keys <= {"email"}
    ensures r == map[] <==> Trim(email) != "" && EmailPattern(email)
    ensures Trim(email) == "" ==> r == Reported(EmailRequired)
    ensures Trim(email) != "" && !EmailPattern(email) ==> r == Reported(EmailInvalid)
  {
    if Trim(email) == "" then Reported(EmailRequired)
    else if !EmailPattern(email) then Reported(EmailInvalid)
    else map[]
  }

  /** An errors object holding one message for the email field. */
  function Reported(message: string): (r: map<string, string>)
    ensures r != map[] && r.Keys == {"email"} && r["email"] == message
  {
    var r := map["email" := message];
    assert "email" in r;
    r
  }

  /** An address of white space only, the empty one included, is reported as missing and only as missing. */
  lemma BlankIsRequired(email: string)
    ensures AllSpace(email) <==> ValidationErrors(email) == Reported(EmailRequired)
  {
    TrimEmptyIffBlank(email);
    if !AllSpace(email) && !EmailPattern(email) {
      assert Reported(EmailInvalid)["email"] != Reported(EmailRequired)["email"];
    }
  }

  /**
   * The pattern is tested on the address as typed: one with any white space in
   * it, around it or inside it, that is not blank is reported as invalid, never
   * as missing, even when its trimmed form would be accepted.
   */
  lemma SurroundingSpaceIsInvalid(email: string, i: nat)
    requires i < |email| && IsSpace(email[i]) && !AllSpace(email)
    ensures ValidationErrors(email) == Reported(EmailInvalid)
  {
    TrimEmptyIffBlank(email);
    EmailPatternShape(email);
  }

  /**
   * An accepted address has no white space, a single '@' that is not first, and
   * a '.' after it that is neither the first nor the last character of the
   * domain; it is also accepted by the sign-in form's identifier rule.
   */
  lemma AcceptedEmailShape(email: string)
    requires ValidationErrors(email) == map[]
    ensures EmailShape(email)
    ensures Login.IdentifierError(email) == None
  {
    EmailPatternShape(email);
    var at: nat :| 0 < at < |email| && OnlyAtSignAt(email, at);
    assert email[at] == '@';
  }

  class ForgetPasswordPage {
    var email: string
    var errors: map<string, string>

    /** The page opens with an empty address and no errors. */
    constructor ()
      ensures email == "" && errors == map[]
    {
      email := "";
      errors := map[];
    }

    /** The message shown under the field. */
    function ShownError(): (r: Option<string>)
      reads this
      ensures r.Some? <==> "email" in errors
      ensures r.Some? ==> r.value == errors["email"]
    {
      if "email" in errors then Some(errors["email"]) else None
    }

    /** Typing in the field replaces the address and leaves the errors as they were. */
    method ChangeEmail(value: string)
      modifies this`email
      ensures email == value
    {
      email := value;
    }

    /**
     * `handleSubmit`: with an error the errors are stored and the page stays;
     * without one the errors are cleared and the page moves to "/checkmail".
     */
    method HandleSubmit() returns (navigation: Option<string>)
      modifies this`errors
      ensures errors == ValidationErrors(email)
      ensures navigation == (if errors == map[] then Some(CheckMailRoute) else None)
      ensures navigation.Some? <==> Trim(email) != "" && EmailPattern(email)
      ensures ShownError().Some? <==> navigation.None?
      ensures Trim(email) == "" ==> ShownError() == Some(EmailRequired)
      ensures Trim(email) != "" && !EmailPattern(email) ==> ShownError() == Some(EmailInvalid)
    {
      var validationErrors: map<string, string> := map[];
      if Trim(email) == "" {
        validationErrors := validationErrors["email" := EmailRequired];
        assert validationErrors == Reported(EmailRequired);
      } else if !EmailPattern(email) {
        validationErrors := validationErrors["email" := EmailInvalid];
        assert validationErrors == Reported(EmailInvalid);
      }
      assert validationErrors == ValidationErrors(email);
      assert |validationErrors| > 0 <==> validationErrors != map[] by {
        if validationErrors != map[] {
          assert "email" in validationErrors;
        }
      }
      if |validationErrors| > 0 {
        errors := validationErrors;
        navigation := None;
      } else {
        errors := map[];
        navigation := Some(CheckMailRoute);
      }
    }
  }
}
