/** The form host (RegistrationForm.tsx): it binds the active step's rule set,
    owns the two verification flags, gates the Back and Next buttons, and on
    a successful validation forwards the form's values to the page. */
module RegistrationForm {
  import opened Wrappers
  import opened Zod
  import opened RegisterValidation
  import opened RegisterPage

  /** The identity-verification flags: the account was created, and the
      e-mailed code was confirmed. */
  datatype Flags = Flags(isUserVerified: bool, isOtpVerified: bool)

  /** Both flags start false when the form is first rendered. */
  const InitialFlags: Flags := Flags(false, false)

  /** Flags only ever move from false to true. */
  predicate FlagsLe(a: Flags, b: Flags) {
    (a.isUserVerified ==> b.isUserVerified) && (a.isOtpVerified ==> b.isOtpVerified)
  }

  predicate BothVerified(f: Flags) {
    f.isUserVerified && f.isOtpVerified
  }

  /** The Back button is disabled exactly on the first step. */
  predicate BackDisabled(activeStep: int) {
    activeStep == CompanyInfo
  }

  /** The Next button is disabled exactly on the user step while the account
      is not yet created or its code not yet confirmed. */
  predicate NextDisabled(activeStep: int, flags: Flags) {
    activeStep == UserInfo && (!flags.isUserVerified || !flags.isOtpVerified)
  }

  /** What a form submission ends in: the render crashed on an invalid step,
      validation reported issues, or the values were forwarded to the page. */
  datatype FormSubmission =
    | Crashed(message: string)
    | Invalid(issues: seq<Issue>)
    | Forwarded(values: FormValues)

  /** `handleSubmit(onValid)` with the schema `makeRegisterValidation(activeStep)`:
      when the values pass, `onValid` forwards `getValues()`, i.e. every
      current value, not only the fields the schema declares. */
  function SubmitForm(activeStep: int, values: FormValues, emailOk: string -> bool): (r: FormSubmission)
    ensures r.Crashed? <==> !InRange(activeStep)
    ensures r.Crashed? ==> r.message == InvalidStepMessage
    ensures r.Forwarded? <==> InRange(activeStep) && StepValid(activeStep, values, emailOk)
    ensures r.Forwarded? ==> r.values == values
    ensures r.Invalid? ==> r.issues != []
  {
    MakeRegisterValidationSpec(activeStep, values, emailOk);
    match MakeRegisterValidation(activeStep)
    case Failure(e) => Crashed(e)
    case Success(schema) =>
      var issues := Issues(schema, values, emailOk);
      if issues == [] then Forwarded(values) else Invalid(issues)
  }
}
