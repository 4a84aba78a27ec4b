/** The step content renderer (RegistrationFormContent.tsx): which fields and
    verification controls each step shows, and the two handlers that call the
    identity provider and raise the verification flags. */
module FormContent {
  import opened Wrappers
  import opened JsString
  import opened Zod
  import opened Identity
  import opened RegisterPage
  import opened RegistrationForm

  const CompanyFields: seq<string> := [
    "entity_name", "entity_type", "fein", "address_line_1", "address_line_2",
    "city", "state", "zip_code", "phone_number", "nys_unemployment_registration_number"
  ]

  /** The user step renders camel-case name fields and no role field. */
  const UserFields: seq<string> := ["firstName", "middleName", "lastName", "email", "password"]

  const PayrollFields: seq<string> := ["pay_frequency", "pay_period", "payroll_start_date", "check_number"]

  /** A loading button: not rendered, or rendered enabled or disabled. */
  datatype Button = Hidden | Enabled | Disabled

  /** What one step renders: its input fields and the two verification
      buttons of the user step (Confirm creates the account, Verify confirms
      the e-mailed code). */
  datatype View = View(fields: seq<string>, confirm: Button, verify: Button)

  /** Account not yet created: the Confirm button is shown. */
  predicate AwaitingAccount(flags: Flags) {
    !flags.isUserVerified
  }

  /** Account created but code not confirmed: the code field and Verify are shown. */
  predicate AwaitingCode(flags: Flags) {
    flags.isUserVerified && !flags.isOtpVerified
  }

  /** The rendered content of `activeStep`; `None` is the `null` rendered for
      a step outside the three known values. `code` is the watched value of
      the code field. */
  function Render(activeStep: int, flags: Flags, code: Option<string>): (v: Option<View>)
    ensures v.None? <==> !InRange(activeStep)
    ensures activeStep == UserInfo ==>
      && (v.value.confirm != Hidden <==> !flags.isUserVerified)
      && (v.value.verify != Hidden <==> flags.isUserVerified && !flags.isOtpVerified)
      && ("code" in v.value.fields <==> flags.isUserVerified && !flags.isOtpVerified)
    ensures v.Some? && v.value.verify != Hidden ==> (v.value.verify == Enabled <==> Truthy(code))
    ensures v.Some? && v.value.confirm != Hidden ==> v.value.confirm == Enabled
    ensures v.Some? && activeStep != UserInfo ==> v.value.confirm == Hidden && v.value.verify == Hidden
  {
    if activeStep == CompanyInfo then Some(View(CompanyFields, Hidden, Hidden))
    else if activeStep == UserInfo then
      var confirm := if AwaitingAccount(flags) then Enabled else Hidden;
      var verify := if !AwaitingCode(flags) then Hidden else if Truthy(code) then Enabled else Disabled;
      var fields := UserFields + (if AwaitingCode(flags) then ["code"] else []);
      assert "code" !in UserFields;
      Some(View(fields, confirm, verify))
    else if activeStep == Payroll then Some(View(PayrollFields, Hidden, Hidden))
    else None
  }

  /** The field names the step shows, empty when nothing is rendered. */
  function RenderedFields(activeStep: int, flags: Flags, code: Option<string>): seq<string> {
    match Render(activeStep, flags, code)
    case Some(view) => view.fields
    case None => []
  }

  /** At most one verification control is shown at a time, and none once
      both the account and the code are verified. */
  lemma VerificationControls(activeStep: int, flags: Flags, code: Option<string>)
    requires InRange(activeStep)
    ensures var v := Render(activeStep, flags, code).value;
      && (v.confirm == Hidden || v.verify == Hidden)
      && (BothVerified(flags) ==> v.confirm == Hidden && v.verify == Hidden && "code" !in v.fields)
  {
  }

  /** `isSubmitting` and the flags, as far as the handlers change them. */
  datatype ContentState = ContentState(flags: Flags, isSubmitting: bool)

  /** A handler's effect: the state after it settles and the request it sent. */
  datatype Handled<Req> = Handled(state: ContentState, sent: Req)

  /** `handleClick`: send the sign-up request; on success set
      `isUserVerified`; on failure only log. `isSubmitting` ends false either
      way. The provider's answer to the request is `provider(request)`. */
  function HandleClick(st: ContentState, values: FormValues, provider: SignUpRequest -> ProviderAnswer): (r: Handled<SignUpRequest>)
    ensures r.sent == SignUpRequestOf(values)
    ensures r.state.flags.isUserVerified <==> st.flags.isUserVerified || provider(r.sent).Resolved?
    ensures r.state.flags.isOtpVerified == st.flags.isOtpVerified
    ensures !r.state.isSubmitting
    ensures FlagsLe(st.flags, r.state.flags)
  {
    var request := SignUpRequestOf(values);
    match provider(request)
    case Resolved => Handled(ContentState(st.flags.(isUserVerified := true), false), request)
    case Rejected(_) => Handled(st.(isSubmitting := false), request)
  }

  /** `handleOtpVerification`: send the confirmation request; on success set
      `isOtpVerified`; on failure only log. */
  function HandleOtpVerification(st: ContentState, values: FormValues, provider: ConfirmRequest -> ProviderAnswer): (r: Handled<ConfirmRequest>)
    ensures r.sent == ConfirmRequestOf(values)
    ensures r.state.flags.isOtpVerified <==> st.flags.isOtpVerified || provider(r.sent).Resolved?
    ensures r.state.flags.isUserVerified == st.flags.isUserVerified
    ensures !r.state.isSubmitting
    ensures FlagsLe(st.flags, r.state.flags)
  {
    var request := ConfirmRequestOf(values);
    match provider(request)
    case Resolved => Handled(ContentState(st.flags.(isOtpVerified := true), false), request)
    case Rejected(_) => Handled(st.(isSubmitting := false), request)
  }

  /** The user step renders none of the three fields the user rule set
      requires, so values made of rendered fields alone never pass it. */
  lemma UserStepFieldMismatch(flags: Flags, code: Option<string>)
    ensures var shown := RenderedFields(UserInfo, flags, code);
      && "first_name" !in shown && "last_name" !in shown && "role" !in shown
      && "firstName" in shown && "lastName" in shown
  {
  }
}
