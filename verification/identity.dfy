/** The two requests the registration flow sends to the hosted identity
    provider. The provider itself is outside the model: callers receive its
    answer as a `ProviderAnswer`. */
module Identity {
  import opened Wrappers
  import opened JsString
  import opened Zod

  /** The answer to one request: the call resolves, or it rejects with some
      provider error. */
  datatype ProviderAnswer = Resolved | Rejected(error: string)

  /** The argument of `signUp`. Fields read from the form may be `undefined`;
      the middle name never is. */
  datatype SignUpRequest = SignUpRequest(
    username: Option<string>,
    password: Option<string>,
    firstName: Option<string>,
    lastName: Option<string>,
    middleName: string)

  /** The argument of `confirmSignUp`. */
  datatype ConfirmRequest = ConfirmRequest(username: Option<string>, confirmationCode: Option<string>)

  /** The sign-up request built from form values: the e-mail address is the
      username, and a missing or empty middle name is sent as ''. */
  function SignUpRequestOf(values: FormValues): (r: SignUpRequest)
    ensures r.username == Get(values, "email")
    ensures r.password == Get(values, "password")
    ensures r.firstName == Get(values, "firstName") && r.lastName == Get(values, "lastName")
    ensures r.middleName == [] <==> !("middleName" in values) || values["middleName"] == []
    ensures "middleName" in values ==> r.middleName == values["middleName"]
  {
    SignUpRequest(
      Get(values, "email"),
      Get(values, "password"),
      Get(values, "firstName"),
      Get(values, "lastName"),
      OrEmpty(Get(values, "middleName")))
  }

  /** The confirmation request: the e-mail address and the typed code. */
  function ConfirmRequestOf(values: FormValues): (r: ConfirmRequest)
    ensures r.username == Get(values, "email") && r.confirmationCode == Get(values, "code")
  {
    ConfirmRequest(Get(values, "email"), Get(values, "code"))
  }

  /** Built from the same values, the confirmation names the account the
      sign-up created; and editing any field other than the e-mail or the
      code leaves the confirmation request unchanged. */
  lemma ConfirmMatchesSignUp(values: FormValues, name: string, v: Option<string>)
    requires name != "email" && name != "code"
    ensures ConfirmRequestOf(values).username == SignUpRequestOf(values).username
    ensures ConfirmRequestOf(Put(values, name, v)) == ConfirmRequestOf(values)
  {
  }
}
