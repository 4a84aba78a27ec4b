/** The standalone sign-up view (amplify-sign-up-view.tsx): its own rule set,
    and what a submission does to the parent's "user verified" flag and to the
    displayed error message. */
module AmplifySignUp {
  import opened Wrappers
  import opened JsString
  import opened Zod
  import opened Identity

  const PasswordRequired: string := "Password is required!"
  const PasswordTooShort: string := "Password must be at least 6 characters!"

  const SignUpSchema: Schema := [
    Field("firstName", Str([MinLength(1, "First name is required!")])),
    Field("lastName", Str([MinLength(1, "Last name is required!")])),
    Field("middleName", OptStr),
    Field("email", Str([MinLength(1, "Email is required!"), Email("Email must be a valid email address!")])),
    Field("password", Str(PasswordChecks))
  ]

  /** The values the form starts from. */
  const DefaultValues: FormValues := map["firstName" := "", "lastName" := "", "email" := "", "password" := ""]

  /** Reference definition of the rule set. */
  predicate SignUpValid(values: FormValues, emailOk: string -> bool) {
    && "firstName" in values && values["firstName"] != []
    && "lastName" in values && values["lastName"] != []
    && "email" in values && values["email"] != [] && emailOk(values["email"])
    && "password" in values && JsLength(values["password"]) >= 6
  }

  lemma SignUpSchemaSpec(values: FormValues, emailOk: string -> bool)
    ensures Valid(SignUpSchema, values, emailOk) <==> SignUpValid(values, emailOk)
  {
    var s := SignUpSchema;
    RequiredNonEmpty("First name is required!", Get(values, "firstName"), emailOk);
    RequiredNonEmpty("Last name is required!", Get(values, "lastName"), emailOk);
    if "email" in values {
      var e := values["email"];
      var cs := s[3].rule.checks;
      assert (forall i :: 0 <= i < |cs| ==> CheckPasses(cs[i], e, emailOk))
         <==> CheckPasses(cs[0], e, emailOk) && CheckPasses(cs[1], e, emailOk);
    }
    if "password" in values {
      var p := values["password"];
      var cs := s[4].rule.checks;
      assert (forall i :: 0 <= i < |cs| ==> CheckPasses(cs[i], p, emailOk))
         <==> CheckPasses(cs[0], p, emailOk) && CheckPasses(cs[1], p, emailOk);
    }
    if SignUpValid(values, emailOk) {
      forall i | 0 <= i < |s| ensures Accepts(s[i].rule, Get(values, s[i].name), emailOk) {
      }
    } else if !("firstName" in values && values["firstName"] != []) {
      assert !Accepts(s[0].rule, Get(values, s[0].name), emailOk);
    } else if !("lastName" in values && values["lastName"] != []) {
      assert !Accepts(s[1].rule, Get(values, s[1].name), emailOk);
    } else if !("email" in values && values["email"] != [] && emailOk(values["email"])) {
      assert !Accepts(s[3].rule, Get(values, s[3].name), emailOk);
    } else {
      assert !Accepts(s[4].rule, Get(values, s[4].name), emailOk);
    }
  }

  lemma UniqueSignUpNames()
    ensures UniqueNames(SignUpSchema)
  {
  }

  /** The password messages: an empty password reports "required" first (and
      also the length message, as zod runs every check); one of 1 to 5 code
      units reports only the length message; 6 or more reports nothing. */
  lemma PasswordMessages(values: FormValues, emailOk: string -> bool)
    requires "password" in values
    ensures var ms := MessagesAt(Issues(SignUpSchema, values, emailOk), "password");
      && (values["password"] == [] ==> ms == [PasswordRequired, PasswordTooShort])
      && (1 <= JsLength(values["password"]) < 6 ==> ms == [PasswordTooShort])
      && (JsLength(values["password"]) >= 6 ==> ms == [])
  {
    UniqueSignUpNames();
    PasswordFieldMessages(SignUpSchema, 4, values, emailOk);
  }

  /** PasswordMessages for any schema whose field `j` is the password field. */
  lemma PasswordFieldMessages(schema: Schema, j: nat, values: FormValues, emailOk: string -> bool)
    requires UniqueNames(schema) && j < |schema|
    requires schema[j] == Field("password", Str(PasswordChecks))
    requires "password" in values
    ensures MessagesAt(Issues(schema, values, emailOk), "password")
         == (if JsLength(values["password"]) >= 1 then [] else [PasswordRequired])
          + (if JsLength(values["password"]) >= 6 then [] else [PasswordTooShort])
  {
    MessagesOfField(schema, values, emailOk, j);
    PasswordCheckMessages(values["password"], emailOk);
  }

  const PasswordChecks: seq<Check> := [MinLength(1, PasswordRequired), MinLength(6, PasswordTooShort)]

  lemma PasswordCheckMessages(p: string, emailOk: string -> bool)
    ensures CheckMessages(PasswordChecks, p, emailOk)
         == (if JsLength(p) >= 1 then [] else [PasswordRequired])
          + (if JsLength(p) >= 6 then [] else [PasswordTooShort])
  {
    var c1, c6 := [PasswordChecks[0]], [PasswordChecks[1]];
    assert PasswordChecks == c1 + c6;
    CheckMessagesAppend(c1, c6, p, emailOk);
  }

  /** The empty default values fail on every required field. */
  lemma DefaultValuesInvalid(emailOk: string -> bool)
    ensures !Valid(SignUpSchema, DefaultValues, emailOk)
  {
    SignUpSchemaSpec(DefaultValues, emailOk);
  }

  /** `errorMessage` and the parent's flag set through `setIsUserVerified`. */
  datatype ViewState = ViewState(errorMessage: Option<string>, userVerified: bool)

  const InitialView: ViewState := ViewState(None, false)

  /** What a press of "Create account" ends in. */
  datatype SignUpSubmission =
    | Blocked(issues: seq<Issue>)                    // validation failed, nothing sent
    | Sent(request: SignUpRequest, state: ViewState) // the request was sent and answered

  /** `onSubmit`: validate; if valid send `signUp`; on success call
      `setIsUserVerified(true)` (after navigating to the verify page); on
      failure store `getErrorMessage(error)`, here `errorText`. */
  function OnSubmit(st: ViewState, values: FormValues, emailOk: string -> bool,
                    provider: SignUpRequest -> ProviderAnswer, errorText: string -> string): (r: SignUpSubmission)
    ensures r.Blocked? <==> !SignUpValid(values, emailOk)
    ensures r.Blocked? ==> r.issues != []
    ensures r.Sent? ==> r.request == SignUpRequestOf(values)
    ensures r.Sent? ==> (r.state.userVerified <==> st.userVerified || provider(r.request).Resolved?)
    ensures r.Sent? && provider(r.request).Resolved? ==> r.state.errorMessage == st.errorMessage
    ensures r.Sent? && provider(r.request).Rejected? ==>
      r.state.errorMessage == Some(errorText(provider(r.request).error)) && r.state.userVerified == st.userVerified
  {
    SignUpSchemaSpec(values, emailOk);
    var issues := Issues(SignUpSchema, values, emailOk);
    if issues != [] then Blocked(issues)
    else
      var request := SignUpRequestOf(values);
      match provider(request)
      case Resolved => Sent(request, st.(userVerified := true))
      case Rejected(e) => Sent(request, st.(errorMessage := Some(errorText(e))))
  }

  /** The flag is raised only by a request the provider accepted; a rejected
      request leaves a non-null error message and the flag as it was. */
  lemma VerifiedOnlyAfterSignUp(values: FormValues, emailOk: string -> bool,
                                provider: SignUpRequest -> ProviderAnswer, errorText: string -> string)
    ensures var r := OnSubmit(InitialView, values, emailOk, provider, errorText);
      && (r.Sent? && r.state.userVerified ==> SignUpValid(values, emailOk) && provider(SignUpRequestOf(values)).Resolved?)
      && (r.Sent? && !r.state.userVerified ==> r.state.errorMessage.Some?)
      && (r.Blocked? ==> !SignUpValid(values, emailOk))
  {
  }
}
