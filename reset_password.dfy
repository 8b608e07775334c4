/**
 * The reset-password form: the Yup schema of the new password and its
 * confirmation, and the request body sent once both pass.
 */
module ResetPassword {
  import opened Optional
  import opened Patterns

  const ClassMessage :=
    "Password must include at least one uppercase letter, one lowercase letter, one number, and one special character."

  /** The form's values, which are also the body posted to the reset endpoint. */
  datatype ResetValues = ResetValues(password: string, confirmPassword: string)

  /** What the schema reports for a set of values: one message per failing field. */
  function ResetErrors(v: ResetValues): (r: map<string, string>)
    ensures ErrorOf(r, "password") == PasswordError(v.password, ClassMessage)
    ensures ErrorOf(r, "confirmPassword") == ConfirmError(v.confirmPassword, v.password)
    ensures r.Keys <= {"password", "confirmPassword"}
  {
    Record(Record(map[], "password", PasswordError(v.password, ClassMessage)),
           "confirmPassword", ConfirmError(v.confirmPassword, v.password))
  }

  /**
   * The values pass exactly when the password has 8 or more characters and all
   * four classes, and the confirmation repeats it. A mismatch is reported on the
   * confirmation even when the password itself fails.
   */
  lemma ResetValidIff(v: ResetValues)
    ensures ResetErrors(v) == map[] <==>
              |v.password| >= 8 && HasAllClasses(v.password) && v.confirmPassword == v.password
    ensures v.confirmPassword != "" && v.confirmPassword != v.password ==>
              ErrorOf(ResetErrors(v), "confirmPassword") == Some(PasswordsDiffer)
  {
    var r := ResetErrors(v);
    if r != map[] {
      var f :| f in r;
      assert ErrorOf(r, f).Some?;
    }
  }

  /** Formik calls `onSubmit`, which posts both values unchanged, only when validation passes. */
  function ResetSubmit(v: ResetValues): (r: Option<ResetValues>)
    ensures r.Some? <==> ResetErrors(v) == map[]
    ensures r.Some? ==> r.value == v && r.value.confirmPassword == r.value.password
  {
    ResetValidIff(v);
    if ResetErrors(v) == map[] then Some(v) else None
  }
}
